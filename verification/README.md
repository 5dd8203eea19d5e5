# GravityClaw: verified models of the durable state machines

GravityClaw keeps its work in SQLite and must stay correct when processes die, requests are
repeated and coroutines interleave. This project models the parts of it that carry that burden
and proves what they keep. `dafny verify dfyconfig.toml` checks everything.

- **TaskFlow** (`Graph`, `TaskBoard`, `Promotion`, `Dispatcher`, `DispatcherRuns`,
  `DispatcherHistories`, `DispatcherAwaits`, `BoardOutcomes`, `DispatcherOutcomes`, `TaskFlow`): the
  dependency graph and its cycle check, promotion, the dispatcher's tick with bounded retries,
  histories that mix ticks with edits and interventions, and ticks that overlap. Board states are
  values with pure transition functions; the class `TaskFlow.TaskFlowService` rewrites rows in
  loops as the source does, each method proved equal to its transition.
- **Channel delivery** (`Outbox`, `Delivery`, `DeliveryRuns`, `DeliveryOutcomes`, `LostUpdates`): the
  outbox rows, the methods that move them, and a state machine of any number of delivery loops,
  lease expiries, presentation updates, crashes and a provider.
- **Channel intake** (`Intake`, `IntakeRuns`, `IntakeOutcomes`): the inbox, commands and routing,
  polling with replays and crashes.
- **Context compiler** (`Text`, `Ordering`, `Rendering`, `RenderOrder`, `Context`, `Compiler`,
  `CompilerInputs`, `CompilerOutcomes`, `Summary`, `SummaryOutcomes`): greedy selection under three
  budgets, grouped rendering, and the rolling summaries of a growing conversation.
- **Scheduler** (`Scheduler`, `SchedulerOutcomes`, `Overlap`, `OverlapRuns`, `OverlapOutcomes`,
  `DispatchFailures`): which occurrences a tick finds due and what it decides about them; passes
  over all schedules under their overlap policies, interleaved at their awaits with edits and
  crashes; dispatches that fail.
- **Run reconciliation** (`Reconcile`, `RestartScan`, `RestartFates`, `ReconcileRuns`): claims,
  worker starts, exits and crashes, and the two scans of a restart.

The modules whose names end in Outcomes, Inputs, Order and Fates say what each operation does to
what a caller can see.

## How to read it

Times are whole numbers supplied by the caller. Random identifiers are new names or places in a
sequence. One SQLite transaction is one step. A coroutine may be interrupted wherever the source
awaits. Provider replies, run results, worker listings and event logs are inputs.

A dispatcher tick is one step in `Dispatcher`, `DispatcherRuns` and `DispatcherHistories`; what is
claimed there holds of ticks that do not overlap and of edits between them. `DispatcherAwaits`
takes ticks apart at the await in each submission, with any number of them at once, edits,
interventions and crashes in between, and shows that an undisturbed one is the tick
(`UndisturbedIsTick`).

The delivery fault model is the adapter's: an ambiguous error means the request was carried out
or not, any other error that it was not, and an accepted first send brings back a non-empty
message id. A request still under way when its loop crashes is carried out by then or never: the
provider does not apply an edit after the restart. A run's presentation is enqueued once, with
the run. The Telegram adapter reports a reply without an id as "not created"
(`src/gravityclaw/telegram.py:208-233`), so at-most-once sending rests on Telegram never
omitting the id of a message it created.

Of the compiler, JSON text, digests, section titles and the heading are given functions; all
that is used of JSON is that a list's text is its items with commas between. Token estimates use
the UTF-8 lengths of section 3 of RFC 3629. Sort keys are tuples of numbers, with a label
written as its code points and an end mark.

Of run reconciliation, a run is given one worker by the manager, as the container name enforces;
containers of unknown origin may carry any labels. Workers do not exit between the listing and
the end of the scans.

## What the proofs show to be false

Each with a failing input and the exact condition.

- **An orphaned run stops the dispatcher.** The table `task_attempts` does not admit the outcome
  ORPHANED (`src/gravityclaw/store.py:5254-5263`), so recording it raises and aborts the whole
  tick, and every later one: `OrphanInstance`, `TickRaisesIff`, `OrphanWedgesDispatcher`. A run
  becomes ORPHANED when a container in another workspace carries its label before its own worker
  is attached: `StrayedArises`, `StrayedRunIsOrphaned`.
- **Parents from another flow defeat the cycle check.** `create_task` accepts them, `add_dependency`
  looks at one flow's edges only: `CrossFlowParentsBreakAcyclicity`. A sequence of operations
  keeps the graph acyclic exactly when no accepted dependency's child reaches its parent at the
  time: `OpsAcyclicIff`.
- **Attempts can be exceeded.** A dependency edit promotes a TRIAGE task even when its attempts
  are used up, and `unblock_task` and `retry_task` put any task back to work. A history from the
  empty board: `UsedUpTaskRevived`. Over every mixed history attempts stay within their limits
  exactly when no such event meets a used-up task (`AttemptsHistory`).
- **The guard against repeated blocks counts blocks for other reasons.** It is to catch a task blocked
  again and again for one reason, but the stored count goes up with every block
  (`src/gravityclaw/store.py:3811`) and is compared whenever the last two reasons agree:
  `GuardInstance`. The guard acts as meant exactly unless the last two blocks are for one reason
  and the one before them for another (`GuardRightIff`).
- **Ticks at once start a task twice.** The loop and the dispatch endpoint
  (`src/gravityclaw/api.py:3345-3352`) both run ticks. While one awaits a submission the other
  may reconcile the claimed task by its previous attempt and claim it again: `TwoCyclesOverrun`.
  Over every interleaving attempts stay within limits and each task that is being started stays
  RUNNING, with an attempt left and in one tick's hands, exactly when no tick reconciles, and
  nobody intervenes in, such a task and nothing puts a used-up one back to work
  (`InterleavedCycles`).
- **An update can be lost.** A claim expires a stale lease even while a loop still holds the edit,
  and a restart puts back every row in flight. As long as that does not happen to an edit that
  is still in some loop's hands, nothing is lost, with any number of loops (`NoLostUpdate`).
  Whenever it does, the history can go on to rest with a DELIVERED row whose message shows
  another text (`LostUpdateFollows`). `TwoLoopsLoseAnUpdate` is an instance; one loop, which
  claims with nothing in hand, is always in time (`OneLoopIsInTime`).
- **A run's own earlier message breaks a summary's coverage.** History leaves out the messages of
  the run being compiled: `OwnMessageBreaksCoverage`. The count is right exactly when those come
  after as many pending messages as are folded in (`CompactionCoversIff`).
- **Compaction on request counts twice.** `compact_conversation` summarizes the conversation from
  its start and adds the earlier summary's count: `RequestCountsTwice`. It is right exactly when
  the earlier summary covers just what lies beyond the newest ten thousand messages
  (`RequestCoversIff`).
- **More than a thousand due occurrences stop the scheduler.** The error leaves the schedule
  unchanged, so each later tick fails there too and never reaches the schedules after it:
  `OverLimitInstance`, `RaisesIff`, `OverLimitIsFinal`.
- **A schedule edited to a blank prompt fails at every dispatch.** `create_schedule` refuses a blank
  prompt (`src/gravityclaw/store.py:1711-1712`), `update_schedule` stores it
  (`src/gravityclaw/store.py:1794-1840`), and submitting the run then raises
  (`src/gravityclaw/store.py:2064-2066`): `BlankEditInstance`. A claim is followed by its run
  exactly when the prompt is not blank (`FailedDispatch`, `ClaimSubmitsIff`); without such edits,
  and with no process ending between claim and submission, no occurrence ever stays claimed
  (`NoFailureWithoutBlanks`), and while the prompt stays blank the schedule gets no run
  (`BlankNeverRuns`).
- **A failed dispatch ends the pass for every later schedule.** The handler asks `decide_trigger` for
  FAILED, which it rejects with an error (`src/gravityclaw/store.py:2043-2048`). A pass ends so
  exactly when the first schedule it does not pass over has nothing active and a blank prompt
  (`PassRaisesIff`); the schedules after it are as they were (`FailedDispatch`). The occurrence
  stays CLAIMED until its lease's end or an edit of the schedule, and in every history the
  schedule gets no run meanwhile (`HeldUntilReleased`). Its other pending occurrences wait under
  QUEUE and REPLACE; under SKIP the next pass that gets to them skips them (`SkipLosesWaiting`).
- **A borrowed label blocks restarts.** `workers.run_id` is unique
  (`src/gravityclaw/store.py:4604-4606`), so a container that carries the label of a run with
  another worker on record cannot be recorded: `BorrowedLabelBlocksRestart`. The scan fails
  exactly when some worker cannot be recorded (`RestartRaisesIff`), and then at every restart
  (`FailedRestartRepeats`).
- **A worker of a queued run survives a restart.** The scan leaves it running:
  `EarlyWorkerSurvives`. With none such, and only then, a restart that goes through leaves runs
  and workers in agreement (`RestartRestoresIff`).
- **A blank message stops intake.** It raises before the cursor moves, so no later update is
  taken in: `BlankMessageInstance`, `BlankMessageStopsIntake`. A batch is taken in whole exactly
  when it holds none (`BatchOkIff`).

## Model

| member | source | states |
|---|---|---|
| Graph.DetectDagCycle | src/gravityclaw/taskflow.py:96-120 | The breadth-first search returns true exactly when the new edge's child already reaches its parent; it ends on every input |
| Graph.EdgeClosesCycle | src/gravityclaw/taskflow.py:96-120 | In an acyclic graph a new edge creates a cycle if and only if its child reaches its parent |
| Graph.Search | src/gravityclaw/taskflow.py:106-120 | The queue loop ends and finds the target exactly when it is reachable |
| TaskBoard.OpKeepsAcyclicIff | src/gravityclaw/taskflow.py:260-341 | Any creation, with parents of any flow, and any dependency edit leaves an acyclic graph acyclic exactly when it is no accepted dependency whose child reaches its parent |
| TaskBoard.OpsAcyclicIff | src/gravityclaw/taskflow.py:260-341 | A sequence of them keeps the graph acyclic throughout exactly when each is so when its turn comes |
| TaskBoard.OpKeepsSoundIff | src/gravityclaw/taskflow.py:260-341 | Any creation or dependency edit keeps keys valid, edges inside flows and the graph acyclic exactly when it is no creation that goes through with a parent in another flow |
| TaskBoard.OpsSoundIff | src/gravityclaw/taskflow.py:260-341 | So does every sequence of them, throughout, exactly when none is such a creation when its turn comes |
| TaskBoard.NewLeafKeepsAcyclic | src/gravityclaw/store.py:3643-3720 | However many parents a new task is given, it closes no cycle |
| TaskBoard.AcceptedDependencySafeIff | src/gravityclaw/taskflow.py:322-337 | An accepted dependency keeps the whole graph acyclic exactly when the child did not reach the parent; with parents inside flows it always does |
| TaskBoard.CrossFlowParentsBreakAcyclicity | src/gravityclaw/taskflow.py:289-294 | With a parent from another flow, an accepted dependency closes a cycle |
| BoardOutcomes.CreateOutcome | src/gravityclaw/taskflow.py:260-312 | A creation under a known key changes nothing; any other that goes through adds one task with the given fields, READY exactly if all its parents are DONE, and the edges from its parents |
| BoardOutcomes.CreateAcceptedIff | src/gravityclaw/store.py:3643-3700 | It goes through exactly when flow and parents exist and neither its id nor an empty key is taken |
| BoardOutcomes.DependencyOutcome | src/gravityclaw/taskflow.py:322-341 | A dependency edit changes the one edge, and makes the child READY exactly if it was TODO, or in TRIAGE with a parent, and all its parents are now DONE |
| BoardOutcomes.DependencyRefusals | src/gravityclaw/taskflow.py:322-337 | The refusals of a dependency in the order of the checks, on any sound board |
| BoardOutcomes.PromotionOutcome | src/gravityclaw/taskflow.py:464-471 | A promotion pass makes READY exactly the flow's TODO tasks whose parents are all DONE and reports their number |
| BoardOutcomes.GuardCounts | src/gravityclaw/taskflow.py:343-390 | After any blocks with unblocks between them a task is in TRIAGE exactly if there were three or more and the last two were for one reason, and BLOCKED otherwise |
| BoardOutcomes.GuardRightIff | src/gravityclaw/taskflow.py:357-375 | That agrees with three in a row for one reason exactly unless the last two agree and the one before differs |
| BoardOutcomes.GuardInstance | src/gravityclaw/store.py:3787-3816 | Three blocks that send a task to TRIAGE at the second in a row |
| Promotion.StallsIff | src/gravityclaw/taskflow.py:444-471 | A promotion pass leaves nothing READY or RUNNING exactly when nothing was and every TODO task hangs by waiting tasks from one that is stuck |
| Promotion.NoDeadlock | src/gravityclaw/taskflow.py:444-471 | If all tasks of a flow are TODO, READY, RUNNING or DONE and one is not DONE, then after the pass one is READY or RUNNING |
| Dispatcher.TickKeepsOrder | src/gravityclaw/taskflow.py:554-577 | A tick never undoes DONE, never exceeds the attempt limit and lowers the weight of every task it changes; and it keeps READY or RUNNING tasks' parents DONE if they were |
| DispatcherRuns.TickLowersTotal | src/gravityclaw/taskflow.py:579-809 | Each tick that changes a task lowers the total of remaining attempts and status ranks |
| DispatcherRuns.ActivityDiesOut | src/gravityclaw/taskflow.py:554-723 | Over any run of ticks the number of ticks that change a task is bounded by the initial total |
| DispatcherRuns.FullTickNeverWaits | src/gravityclaw/taskflow.py:870-909 | On any sound board, after a full tick a flow whose tasks are all TODO, READY, RUNNING or DONE is SUCCEEDED if all are DONE and otherwise RUNNING, never WAITING |
| DispatcherHistories.MixedHistory | src/gravityclaw/taskflow.py:260-723 | Over every history that mixes creations, dependency edits, blocks, unblocks, retries and ticks, dependencies stay acyclic and inside flows throughout exactly when no task is created below one of another flow |
| DispatcherHistories.DoneHistory | src/gravityclaw/taskflow.py:260-723 | In every such history DONE is undone exactly by a block, unblock or retry of a DONE task |
| DispatcherHistories.AttemptsHistory | src/gravityclaw/taskflow.py:392-462 | In every such history attempts stay within their limits throughout exactly when no unblock, retry or promoting edit meets a task whose attempts are used up |
| DispatcherHistories.ByHandKeepsOrderlyIff | src/gravityclaw/taskflow.py:343-442 | A block always keeps tasks within their attempts; an unblock or retry does exactly when the task has attempts left |
| DispatcherHistories.OpKeepsOrderlyIff | src/gravityclaw/taskflow.py:444-462 | An operation keeps every task within its attempts exactly when it promotes no TRIAGE task whose attempts are used up |
| DispatcherHistories.UsedUpTaskRevived | src/gravityclaw/taskflow.py:343-462 | A history from the empty board that gives a task whose one attempt is used up a second one: it is blocked three times for one reason, then made to depend on a task that is done |
| DispatcherAwaits.UndisturbedIsTick | src/gravityclaw/taskflow.py:554-809 | With nothing between its awaits a tick taken apart there does what the tick analysed as one step does |
| DispatcherAwaits.StepKeepsOrderIff | src/gravityclaw/taskflow.py:554-809 | A step keeps attempts within their limits and every task that is being started RUNNING, with an attempt left and in one tick's hands, exactly when it neither reconciles nor intervenes in such a task nor puts a used-up one back to work |
| DispatcherAwaits.InterleavedCycles | src/gravityclaw/taskflow.py:554-809 | So over every interleaving of any number of ticks, edits, interventions and crashes, throughout |
| DispatcherAwaits.TwoCyclesOverrun | src/gravityclaw/taskflow.py:734-809 | An interleaving of two ticks that starts a task of two attempts a third time |
| DispatcherRuns.TickRaisesIff | src/gravityclaw/taskflow.py:579-679 | A tick raises exactly when a RUNNING task with an attempt has an orphaned run; that task is then left as it was |
| DispatcherRuns.OrphanWedgesDispatcher | src/gravityclaw/taskflow.py:656-664 | From then on every tick raises, no flow status changes and no attempt is ever started |
| DispatcherRuns.OrphanInstance | src/gravityclaw/taskflow.py:656-664 | A board on which a tick raises |
| DispatcherOutcomes.ReconcileOutcome | src/gravityclaw/taskflow.py:579-723 | What reconciling makes of every task and its claim, by its run's report and its parents': DONE, blocked for the reason given, READY again, FAILED, blocked by a parent that gives up, or as it was |
| DispatcherOutcomes.FailureOutcome | src/gravityclaw/taskflow.py:681-723 | A failed run's task is READY while attempts remain, unless a parent reconciled later gives up; otherwise FAILED, and each child of its flow that was TODO or READY is blocked for the dependency |
| DispatcherOutcomes.DoneIff | src/gravityclaw/taskflow.py:638-652 | After a tick that does not raise a task is DONE exactly if it was or its run reports completion |
| DispatcherOutcomes.TickOutcome | src/gravityclaw/taskflow.py:554-577 | After reconciliation a tick promotes what is ready in open flows and starts what it picks with one more attempt and a claim, or leaves it READY without one |
| DispatcherOutcomes.UrgentFirst | src/gravityclaw/store.py:4050-4075 | No available task is passed over for a less urgent one or an equally urgent later one |
| DispatcherOutcomes.FreePlacesUsed | src/gravityclaw/taskflow.py:734-747 | An available task is left only when all places are taken |
| DispatcherOutcomes.FlowOutcome | src/gravityclaw/taskflow.py:870-909 | A tick calls each open flow with tasks SUCCEEDED, RUNNING, FAILED, BLOCKED or WAITING exactly as its tasks then stand |
| TaskFlow.TaskFlowService.CreateTask | src/gravityclaw/taskflow.py:260-312 | Returns the stored task for a known key, refuses unknown flows and parents, else adds the task with its edges and evaluates it |
| TaskFlow.TaskFlowService.AddDependency | src/gravityclaw/taskflow.py:322-337 | Refuses missing tasks, different flows and cycles, changing nothing; else adds the edge and evaluates the child without demoting it |
| TaskFlow.TaskFlowService.RemoveDependency | src/gravityclaw/taskflow.py:339-341 | Removes the edge and evaluates the child |
| TaskFlow.TaskFlowService.EvaluateTaskPromotion | src/gravityclaw/taskflow.py:444-462 | A TODO task, or a TRIAGE task with parents, becomes READY exactly when its parents are all DONE |
| TaskFlow.TaskFlowService.AutoPromoteFlow | src/gravityclaw/taskflow.py:464-471 | Promotes exactly the TODO tasks of the flow whose parents are DONE, and counts them |
| TaskFlow.TaskFlowService.HandleTaskFailure | src/gravityclaw/taskflow.py:681-710 | Back to READY while attempts remain, else FAILED with its waiting children blocked |
| TaskFlow.TaskFlowService.HandleParentTaskFailed | src/gravityclaw/taskflow.py:712-723 | Blocks exactly the children that are TODO or READY |
| TaskFlow.TaskFlowService.ReconcileRunningTasks | src/gravityclaw/taskflow.py:579-679 | Takes the RUNNING tasks in turn by what their runs report, ending at the first error |
| TaskFlow.TaskFlowService.ClaimReadyTasks | src/gravityclaw/store.py:4050-4096 | Moves the first READY tasks in claim order to RUNNING, no more than the limit allows |
| TaskFlow.TaskFlowService.DispatchReadyTasks | src/gravityclaw/taskflow.py:734-809 | Starts a numbered attempt for each claimed task, or handles the failure to start |
| TaskFlow.TaskFlowService.EvaluateAllFlowStatuses | src/gravityclaw/taskflow.py:870-909 | Gives each open flow the status its tasks determine |
| TaskFlow.TaskFlowService.Tick | src/gravityclaw/taskflow.py:554-577 | Reconcile, promote, dispatch, evaluate, in that order, nothing after an error: the tick whose runs are analysed |
| Outbox.ChannelStore.RecoverDeliveries | src/gravityclaw/channel_store.py:386-401 | A restart turns SENDING rows without provider id UNCERTAIN, the others PENDING, touches no other, and returns how many of each |
| Outbox.ChannelStore.ClaimOutbox | src/gravityclaw/channel_store.py:403-449 | Expires stale leases, then claims the oldest due rows of the channel, each once, up to the limit |
| Outbox.ChannelStore.MarkDelivered | src/gravityclaw/channel_store.py:451-479 | Records what was delivered; DELIVERED if the version is still the claimed one, else PENDING for the newer text |
| Outbox.ChannelStore.MarkRetry | src/gravityclaw/channel_store.py:481-509 | UNCERTAIN for an ambiguous first send, FAILED at the attempt limit, else RETRY_WAIT |
| Outbox.ChannelStore.UpdatePresentation | src/gravityclaw/channel_store.py:511-542 | Replaces the text of a run's row and raises its version; SENDING stays, and so do UNCERTAIN and FAILED without a provider id |
| Outbox.ChannelRuntime.Deliver | src/gravityclaw/channel_runtime.py:211-254 | Sends or edits by provider id and records the outcome the reply calls for |
| Outbox.ChannelRuntime.DeliverOnce | src/gravityclaw/channel_runtime.py:90-101 | Claims, then settles each claimed row in order by its reply, and counts those that end without an unexpected error |
| DeliveryOutcomes.RoundOutcome | src/gravityclaw/channel_runtime.py:90-101 | A round claims what is due on the channel, passing over a row only for twenty older ones; each claimed row ends by its reply with one more attempt, every other row is as it was but for a lease that ran out |
| DeliveryOutcomes.RefusalOutcome | src/gravityclaw/channel_runtime.py:229-247 | A row refused for good has FAILED at once; one whose refusal may be repeated has FAILED exactly at the eighth attempt |
| DeliveryOutcomes.AcknowledgeOutcome | src/gravityclaw/channel_store.py:451-509 | The same of an acknowledgement at any point of a history: delivered and current or not, waiting for as long as asked or twice as long as before, FAILED, UNCERTAIN |
| DeliveryOutcomes.RefusedSendIsFinal | src/gravityclaw/channel_runtime.py:244-247 | Over every history a row whose first send is refused for good stays FAILED and is never claimed again |
| DeliveryOutcomes.UpdateOutcome | src/gravityclaw/channel_store.py:511-542 | What an update makes of its row: nothing if it is neither newer nor different |
| Delivery.StepSafe | src/gravityclaw/channel_store.py:386-542 | Every claim, request, acknowledgement, update, crash and restart keeps rows, requests in flight and provider in agreement |
| DeliveryRuns.AtMostOneSend | src/gravityclaw/channel_runtime.py:211-254 | Over every interleaving the provider creates at most one message per row, and a row that may have been sent without a recorded id is never claimable again |
| DeliveryRuns.AmbiguousSendIsFinal | src/gravityclaw/channel_store.py:481-509 | A first send with unknown outcome is never repeated: its row stays UNCERTAIN |
| DeliveryRuns.AttemptsCountClaims | src/gravityclaw/channel_store.py:430-449 | The stored attempt count is the number of times the row was claimed in the history |
| DeliveryRuns.MessageRetriesBounded | src/gravityclaw/channel_store.py:403-509 | A MESSAGE row is claimed at most eight times, crashes and late acknowledgements included |
| DeliveryRuns.DeliveredMessageIsFinal | src/gravityclaw/channel_store.py:403-542 | A DELIVERED MESSAGE row never changes again |
| DeliveryRuns.NoLostUpdate | src/gravityclaw/channel_store.py:403-542 | With any number of loops: as long as no claim or restart puts a row back under an edit still held, a DELIVERED row's message shows `delivered_text`, which is the current `desired_text`, at every moment |
| DeliveryRuns.QuietDeliverySettles | src/gravityclaw/channel_store.py:451-479 | If the text is not updated after a claim, one accepted delivery makes the row DELIVERED with the text it had when claimed |
| LostUpdates.LostUpdateFollows | src/gravityclaw/channel_store.py:386-449 | The converse: after any step that does so, from any state that can arise, the history can go on to rest with a DELIVERED row whose message shows another text |
| LostUpdates.TwoLoopsLoseAnUpdate | src/gravityclaw/channel_runtime.py:90-101 | An instance from the empty store, with two loops |
| Intake.ChannelStore.IngestMessage | src/gravityclaw/channel_store.py:146-331 | Blank text changes nothing; a known update returns its row; a new one is routed, answered once and recorded, as the analysed transition says |
| Intake.ChannelStore.RunCommand | src/gravityclaw/channel_store.py:178-284 | Each command's effect on selection, conversations and cancellation requests |
| Intake.ChannelStore.Poll | src/gravityclaw/channel_runtime.py:180-194 | Takes a batch in order up to the first error |
| IntakeOutcomes.MainOutcome | src/gravityclaw/channel_store.py:198-206 | "/main" leaves the sender on the one open main conversation of the same workspace, new only if there was none, and reports it |
| IntakeOutcomes.WorkspaceOutcome | src/gravityclaw/channel_store.py:178-196 | "/workspace" with a known alias leaves the sender on that workspace's main conversation; with an unknown one the selection stays |
| IntakeOutcomes.NewOutcome | src/gravityclaw/channel_store.py:228-239 | "/new" selects a conversation that was not there before, in the same workspace and not its main one |
| IntakeOutcomes.ChatOutcome | src/gravityclaw/channel_store.py:216-227 | "/chat" selects the open conversation of the workspace that the argument picks, or none other |
| IntakeOutcomes.StopOutcome | src/gravityclaw/channel_store.py:257-276 | "/stop" requests cancellation of the selected conversation's running run, or else of its oldest queued one, or of none |
| IntakeOutcomes.MessageOutcome | src/gravityclaw/channel_store.py:293-305 | A message that is no command starts one queued run with its text in the selected conversation |
| IntakeOutcomes.FirstMessageOutcome | src/gravityclaw/channel_store.py:168-174 | A sender without a selection is led to the default workspace's main conversation if the default is known, and else told so |
| IntakeRuns.ExactlyOnceIntake | src/gravityclaw/channel_store.py:146-163 | Over every history each update up to the cursor is no message, not the owner's or recorded; each row has one answer and at most one run, and every such run and answer has its row |
| IntakeRuns.RecordedOutcomeIsFinal | src/gravityclaw/channel_store.py:155-163 | The cursor never goes back; a recorded row never changes, and ingesting its update at any later time returns it and creates nothing |
| IntakeRuns.MessageIsContained | src/gravityclaw/channel_store.py:165-302 | A message changes only its sender's selection, and starts at most one run, in the conversation then selected, with its text |
| IntakeRuns.RoutingHolds | src/gravityclaw/channel_store.py:575-778 | Every selection leads to a conversation of its workspace; a workspace has at most one unarchived main conversation |
| IntakeRuns.SelectMainRoutes | src/gravityclaw/channel_store.py:638-670 | After choosing a workspace or /main the sender is bound to that workspace's open main conversation |
| IntakeRuns.BatchOkIff | src/gravityclaw/channel_runtime.py:180-194 | A batch is taken in whole exactly when it holds no blank message of the owner |
| IntakeRuns.BlankMessageStopsIntake | src/gravityclaw/channel_store.py:149-151 | A blank message of the owner is never passed by the cursor, and no update from it on is taken in |
| IntakeRuns.BlankMessageInstance | src/gravityclaw/channel_store.py:149-151 | A history in which that happens |
| Ordering.SortOrderIndependent | src/gravityclaw/context.py:355-401 | Sorting by a key that tells items apart does not depend on their order |
| Rendering.RenderWeight | src/gravityclaw/context.py:743-754 | The length of the rendered prompt, in characters or bytes, is a sum over its items in any order |
| Rendering.RenderGrows | src/gravityclaw/context.py:743-754 | Adding any item, to an existing or a new section, makes the prompt strictly longer in characters and bytes |
| Rendering.RenderWithMore | src/gravityclaw/context.py:743-754 | An item added beside more items gives a prompt at least as long |
| Rendering.RenderContains | src/gravityclaw/context.py:743-754 | The prompt contains the JSON text of every item |
| RenderOrder.TiersInOrder | src/gravityclaw/context.py:743-754 | In the prompt an item of a lower tier stands before any section of higher tiers |
| RenderOrder.ItemsByKey | src/gravityclaw/context.py:743-754 | In a section, of two items of one tier the one with the lower sort key stands first |
| Context.GreedyMaximal | src/gravityclaw/context.py:370-391 | No excluded item could be added to the final selection without breaking its category cap, the character or the token budget |
| Context.GreedyPartitions | src/gravityclaw/context.py:366-391 | Each candidate ends up included or excluded, once, the mandatory ones in front |
| Context.OmittedAreExcluded | src/gravityclaw/context.py:401 | Without equal candidates the omitted list names exactly the excluded ones, in order |
| Compiler.CompileContext | src/gravityclaw/context.py:202-408 | The checks in their order, then selection and rendering by the loops, give the compilation analysed below |
| Compiler.Select | src/gravityclaw/context.py:370-391 | The selection loop is the greedy selection by the three budgets |
| Compiler.Judge | src/gravityclaw/context.py:370-387 | The reason an item cannot join, category cap before characters before tokens |
| Compiler.RenderPrompt | src/gravityclaw/context.py:739-754 | The grouping and writing loops produce the rendering whose length is analysed |
| Compiler.OptionalNeverFails | src/gravityclaw/context.py:344-365 | Apart from a history that cannot be summarized, success depends on task, profile and identity documents only |
| Compiler.CompiledPromptFits | src/gravityclaw/context.py:352-393 | A returned prompt meets the character and token budgets, and the JSON text of every identity document and of the task is in it and listed |
| Compiler.CompiledCategoriesFit | src/gravityclaw/context.py:370-391 | Each optional category's estimate stays within its cap |
| Compiler.CompiledIsMaximal | src/gravityclaw/context.py:370-393 | No excluded candidate could be added to the returned prompt |
| Compiler.CompiledPartitions | src/gravityclaw/context.py:366-401 | Included and excluded candidates together are all candidates, each once; with distinct ids the omitted list is the excluded ones |
| Compiler.CompileOrderIndependent | src/gravityclaw/context.py:355-403 | Permuting memories or artifacts with distinct ids changes neither prompt, included and omitted lists, sources nor what is fingerprinted |
| Compiler.SummaryFailsIff | src/gravityclaw/context.py:294-297 | A history over the threshold cannot be summarized exactly when the profile keeps none, or no fewer, of its turns |
| CompilerInputs.FailureOutcome | src/gravityclaw/context.py:202-365 | A compilation fails with the first thing wrong with its request, in numbers, and goes through exactly when nothing is |
| CompilerInputs.IdentityInPrompt | src/gravityclaw/context.py:344-365 | Every identity document's text and the task's are in the prompt and listed |
| CompilerInputs.MemoryOffered | src/gravityclaw/context.py:269-289 | Every memory competes for room |
| CompilerInputs.ConversationOffered | src/gravityclaw/context.py:291-331 | So do the summary and each message not folded into it; neither when the backend holds the conversation |
| CompilerInputs.NothingElse | src/gravityclaw/context.py:202-350 | And nothing else does: the count of what is kept and left out is that of the request's pieces |
| CompilerOutcomes.TurnsByPriority | src/gravityclaw/context.py:370-373 | Optional material is tried by tier, in a tier by falling priority, then by sort key and name |
| CompilerOutcomes.TurnsByKind | src/gravityclaw/context.py:253-342 | Conversation before memory before operational notes before artifacts |
| CompilerOutcomes.NewestFirst | src/gravityclaw/context.py:318-331 | A later message is tried before an earlier one |
| CompilerOutcomes.SummaryTurn | src/gravityclaw/context.py:291-331 | The summary is tried before the first hundred and fifty-one messages, and after any further ones |
| CompilerOutcomes.MoreConfidentFirst | src/gravityclaw/context.py:269-289 | A memory held with more confidence is tried first |
| CompilerOutcomes.TurnOutcome | src/gravityclaw/context.py:374-391 | A candidate is kept exactly if at its turn neither its kind's share, nor the characters, nor the tokens stand against it, and left out with the first reason that does |
| CompilerOutcomes.EarlierOfTwoKept | src/gravityclaw/context.py:370-391 | Of two pieces of one kind and section the one tried first is kept if the other is, unless it is longer |
| CompilerOutcomes.HistoryInOrder | src/gravityclaw/context.py:739-754 | Of the messages kept, the earlier one stands before the later one in the prompt |
| Summary.SummarizeMessages | src/gravityclaw/context.py:757-785 | The loop over the newest eighty messages; it fails only on no messages, is bounded and records the last id |
| Summary.SummaryKeepsNewest | src/gravityclaw/context.py:763-776 | However much went before, the content has at most 16,000 characters and ends with the newest message's line |
| SummaryOutcomes.SummaryOutcome | src/gravityclaw/context.py:757-785 | A summary's text is the earlier summary's, a notice of the messages passed over and the lines of the newest eighty, cut if over sixteen thousand characters; version, ids and count follow |
| SummaryOutcomes.EarlierTextKept | src/gravityclaw/context.py:763-776 | A text that was not cut begins with the earlier summary's |
| SummaryOutcomes.CompactOutcome | src/gravityclaw/context.py:291-331 | A history over the threshold is folded into the next version but for its newest turns; one within it is offered whole |
| SummaryOutcomes.RequestOutcome | src/gravityclaw/store.py:2802-2825 | Compaction on request folds in the newest ten thousand messages but the last few, or is refused |
| Summary.CompactionCoversIff | src/gravityclaw/context.py:291-331 | After a compaction count and end ids describe a prefix of the conversation exactly when the compiling run's own messages come after as many pending ones as are folded in; then what is folded in and the offered history together are the pending messages |
| Summary.OwnMessageBreaksCoverage | src/gravityclaw/context.py:291-331 | A conversation in which they do not |
| Summary.RequestCoversIff | src/gravityclaw/store.py:2802-2855 | The same for compaction on request: exactly when the earlier summary covers just the messages beyond the newest ten thousand |
| Summary.RequestCountsTwice | src/gravityclaw/store.py:2802-2855 | Two messages counted as three |
| Summary.NextCompilation | src/gravityclaw/context.py:291-331 | A compilation of a well-covered conversation succeeds, offers at most 24 messages, and either compacts all but twelve or offers all that is pending |
| Summary.SummaryChainIff | src/gravityclaw/context.py:291-331 | Over any history of turns, compilations and requested compactions, count, first and last id describe one prefix throughout exactly when each step meets its condition above when its turn comes |
| Summary.SummaryStaysBounded | src/gravityclaw/context.py:757-776 | Over any history at all the content has at most 16,000 characters |
| Scheduler.DueExactly | src/gravityclaw/scheduler.py:223-234 | The due list is exactly the fire times from `next_run_at` up to now |
| Scheduler.DueAreFireTimes | src/gravityclaw/scheduler.py:223-234 | In order, and the new `next_run_at` is the first fire time that is not due |
| Scheduler.IntervalCount | src/gravityclaw/scheduler.py:371-377 | For fixed steps the number of due times in closed form |
| SchedulerOutcomes.FireOutcome | src/gravityclaw/scheduler.py:371-386 | The k-th fire time in closed form: the cron's next time k times over, k steps on, or the one time |
| SchedulerOutcomes.TickOutcome | src/gravityclaw/scheduler.py:223-267 | A tick decides each fire time up to now in order, SKIPPED, MISSED or PENDING by policy and age, and sets the last run to the last of them and the next run to the first after now |
| SchedulerOutcomes.SweepOutcome | src/gravityclaw/scheduler.py:202-216 | Schedules are materialized up to the first over the limit and no further |
| Scheduler.RaisesIff | src/gravityclaw/scheduler.py:226-236 | It raises exactly when more than 1000 are due; for fixed steps, when the delay is at least a thousand steps |
| Scheduler.OverLimitInstance | src/gravityclaw/scheduler.py:226-236 | A schedule for which it raises |
| Scheduler.Materialize | src/gravityclaw/scheduler.py:223-267 | The loops compute the due times, one decision each, the next and last run; on the error nothing |
| Scheduler.PendingIsSuffix | src/gravityclaw/scheduler.py:237-262 | One decision per due time, in order; the PENDING ones are the newest, those within grace; run-once and skipping heartbeats leave at most the newest |
| Scheduler.TickSplitIndependent | src/gravityclaw/scheduler.py:202-267 | Ticking at any increasing times decides the same occurrences, each once, and leaves the same next and last run as one tick at the last time |
| Scheduler.SplitTicksSucceed | src/gravityclaw/scheduler.py:223-236 | If one tick stays within the limit, so do all ticks on the way to it |
| Scheduler.ScheduleStore.Tick | src/gravityclaw/scheduler.py:202-216 | Schedules are materialized in turn, the first error ending the tick |
| Scheduler.OverLimitIsFinal | src/gravityclaw/scheduler.py:235-236 | A schedule once over the limit stays so, and no schedule from it on is ever materialized again |
| Overlap.TriggerTable.DispatchPending | src/gravityclaw/scheduler.py:304-329 | The loop over one schedule's pending occurrences up to its next await or error, as analysed below |
| Overlap.TriggerTable.DispatchDue | src/gravityclaw/scheduler.py:274-330 | The loop over all listed schedules up to its next await or error, as analysed below |
| Overlap.TriggerTable.SkipPending | src/gravityclaw/scheduler.py:287-291 | The loop of SKIP turns exactly the schedule's pending occurrences SKIPPED |
| Overlap.PassOutcome | src/gravityclaw/scheduler.py:274-326 | At a schedule that is not passed over, REPLACE cancels first what is active; with nothing active exactly the first pending occurrence is claimed, and submitted with its own new run unless the prompt is blank or the process ends |
| Overlap.WalkOutcome | src/gravityclaw/scheduler.py:274-330 | A pass does what it would do at the first schedule it does not pass over; before it only SKIP's pending occurrences are lost, after it nothing changes |
| OverlapOutcomes.LoopOutcome | src/gravityclaw/scheduler.py:304-326 | A pass that goes on with a schedule claims the first row it holds that can be claimed, if nothing of it is active or it queues, and submits it unless the prompt is blank |
| OverlapOutcomes.SyncOutcome | src/gravityclaw/store.py:2118-2142 | Synchronization gives each dispatched or running occurrence its run's status |
| OverlapOutcomes.EditOutcome | src/gravityclaw/store.py:1794-1840 | An edit sets policy and stripped prompt and skips exactly the schedule's pending and claimed occurrences |
| Overlap.PassRaisesIff | src/gravityclaw/scheduler.py:274-329 | A pass ends in an error exactly when that schedule has nothing active and a blank prompt |
| Overlap.FailedDispatch | src/gravityclaw/scheduler.py:304-330 | A pass that claims an occurrence submits its run exactly when the prompt is not blank; if it is, the occurrence stays claimed without a run, the pass is over and every later schedule is as it was |
| DispatchFailures.ClaimSubmitsIff | src/gravityclaw/store.py:2059-2122 | The same of every step of a new or resumed pass in every reachable state, by the prompt in the listing the pass read when it began |
| DispatchFailures.RaisesOnlyOnBlank | src/gravityclaw/scheduler.py:304-329 | A pass ends in an error exactly by a claim under a blank prompt |
| DispatchFailures.NoFailureWithoutBlanks | src/gravityclaw/store.py:1681-1840 | In a history without edits to a blank prompt and without a process ending between claim and submission, no occurrence is ever left claimed and no pass ends in an error |
| DispatchFailures.StepHoldsIff | src/gravityclaw/store.py:1998-2041 | A claimed occurrence stays as it is through every step exactly if that is neither a recovery at or after its lease's end nor an edit of its schedule |
| DispatchFailures.HeldUntilReleased | src/gravityclaw/scheduler.py:274-330 | Over every history up to such a step the schedule gets no run, and its pending occurrences wait unless a pass follows SKIP |
| DispatchFailures.SkipLosesWaiting | src/gravityclaw/scheduler.py:287-291 | Under SKIP a pass that gets as far as the schedule skips what waits behind the claimed one |
| DispatchFailures.BlankNeverRuns | src/gravityclaw/store.py:2064-2066 | Over every history in which its prompt stays blank a schedule gets no run |
| DispatchFailures.BlankEditInstance | src/gravityclaw/store.py:1794-1840 | A history: the blank creation is refused, the blank edit accepted, and the pass ends there and never comes to the next schedule |
| OverlapRuns.StepIsSafe | src/gravityclaw/scheduler.py:274-330 | Every step between awaits keeps at most one occurrence of a schedule active, gives no run twice and only moves occurrences forward |
| OverlapRuns.NeverTwoActive | src/gravityclaw/scheduler.py:163-176 | For SKIP, QUEUE and REPLACE, however passes interleave, fail or crash and schedules are edited under them, no two occurrences of one schedule are CLAIMED, DISPATCHED or RUNNING at once |
| OverlapRuns.OneRunEach | src/gravityclaw/store.py:2058-2122 | An occurrence gets one run at most, ever, no run serves two of any schedules, and a final state is final |
| Reconcile.RunManager.Reconcile | src/gravityclaw/manager.py:156-252 | The two loops over workers and running runs, with the stale copy of the runs, as analysed below |
| Reconcile.RunManager.Examine | src/gravityclaw/manager.py:162-241 | What one worker of the listing leads to, errors of the store included |
| RestartFates.RunFate | src/gravityclaw/manager.py:156-252 | What a restart that goes through makes of a run that was running: orphaned if the container of its label is in another workspace, running if that runs, ended as its log says if it has exited, interrupted if there is none |
| RestartFates.ExitedRunEnds | src/gravityclaw/manager.py:521-546 | A run whose own worker has exited ends CANCELLED exactly if that was requested, else COMPLETED exactly on a completion that is no empty answer after a failed tool, FAILED on that or a reported failure, INTERRUPTED otherwise |
| RestartFates.EveryWorkerFate | src/gravityclaw/manager.py:162-241 | What it leaves of every container and records of it: removed, stopped or left alone, orphaned, running or exited |
| ReconcileRuns.StartOutcome | src/gravityclaw/manager.py:297-325 | A started worker is attached and watched if its run still runs, and stopped and terminated if not |
| RestartScan.RestartRaisesIff | src/gravityclaw/manager.py:162-241 | With rows in order and any containers: the scan fails exactly when a worker labelled with a known run has no row and its workspace is unknown, its run is named by a row, or another such worker names the run |
| RestartScan.FailedRestartRepeats | src/gravityclaw/manager.py:162-241 | And then every later restart fails too |
| RestartScan.RestartRestoresIff | src/gravityclaw/manager.py:156-252 | A restart that goes through touches no run that was not running, and leaves every running run with its own recorded worker alive and watched and every live worker with such a run exactly when no live worker was labelled with a queued run |
| RestartScan.ReconcileIsIdempotent | src/gravityclaw/manager.py:156-252 | After a restart that went through, reconciling again changes no run and no worker |
| ReconcileRuns.StepKeepsInv | src/gravityclaw/manager.py:268-335 | Claim, start, attach, failure, exit, cancellation, containers with any labels, crash and restart, in any order, keep rows in order, one worker for each run and one running run for each conversation |
| ReconcileRuns.OneRunPerConversation | src/gravityclaw/store.py:1121-1152 | At every moment a conversation has at most one running run |
| ReconcileRuns.RestartExactly | src/gravityclaw/manager.py:156-252 | Both exact conditions hold at every restart of every history |
| ReconcileRuns.RestartRestores | src/gravityclaw/manager.py:156-252 | In histories without borrowed labels every restart goes through and leaves runs and workers in agreement |
| ReconcileRuns.BorrowedLabelBlocksRestart | src/gravityclaw/manager.py:186-207 | A history after which every restart fails, and the one after it |
| ReconcileRuns.EarlyWorkerSurvives | src/gravityclaw/manager.py:233-234 | A history after which a restart leaves a queued run's worker running |
| ReconcileRuns.StrayedArises | src/gravityclaw/manager.py:186-207 | A history in which a container of another workspace carries the label of a run without worker |
| ReconcileRuns.StrayedRunIsOrphaned | src/gravityclaw/manager.py:199-205 | The restart then leaves that run ORPHANED |

## Left out

- Web API, command line, UI, configuration, quota, release and operations code: plumbing.
- Podman, host processes and stream parsing: abstract start, exit and vanish steps.
- SQLite, JSON text, SHA-256, time zones and cron arithmetic: atomic steps, given functions and an abstract increasing next-fire.
- Curator, learning, goals, attachments, presentation wording and notification policy: nothing unbounded to prove.
- Event ingestion in the run manager: a run's log is an input that may change at any time.
- Wall-clock delays and backoff values are inputs or modelled without further claims.
- Edits of a task's text, priority or attempt limit.
- Flow and task deletion, and conversation deletion.
- `/models`, `/model` and response texts: they touch none of the modelled rows. Which open conversation a `/chat` argument selects is a given choice among the workspace's open ones.
- A joint bound for history and summary: each category is compared with the cap by its own name.
- Workers that exit, or monitors that finish runs, while the restart scans are under way.
- Several scheduler processes on one database: the check for active occurrences and the claim are separate transactions there.
- Schedule edits, generations and manual occurrences in the tick-split claims.
- DispatcherRuns.ActivityDiesOut: asks for boards on which no task has used more attempts than it has, because a task that retry_task put back past its limit is run once more.
- Overlap.Begin: takes all pending occurrences, in the order they were recorded, rather than the first thousand by scheduled time, since which one is first does not matter to the claims.
- Schedule deletion and the store's bare change of generation, which act on the occurrences as an edit does.
- Database errors in a pass.
- Scheduler.TickSplitIndependent: does not claim equal verdicts, because lateness is judged at the tick that finds an occurrence due.
- RestartScan.ReconcileIsIdempotent: does not claim equal worker records, because a stopped worker recorded as orphaned is recorded as exited by the next pass.
- Intake.ChannelStore.IngestMessage: one channel, with letter case and character classes as given functions, because no case folding is modelled.
- Compiler.CompileContext: confidence values are exact numbers, because rounding is not the point.
