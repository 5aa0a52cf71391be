# Verified models of RustyTalon's state machines

RustyTalon is an AI agent host: it takes messages from several channels, keeps a conversation thread for
each, lets a model call tools, asks the user before it runs the risky ones, and runs jobs in the background.
Under the I/O lie state machines and bounded data structures whose guarantees come from how functions work
together. This project models them in Dafny and proves those guarantees.

`dafny verify dfyconfig.toml` checks the whole project.

## How it is organised

| modules | subject |
|---|---|
| JobState, ContextManager | the life cycle of one job, the table of all jobs |
| Scheduler, SchedulerTasks, SelfRepair | jobs in parallel: schedule, stop, workers, cleanup tasks, repair |
| Chat, Session, Undo | messages, threads with their turns, checkpoints |
| AgentLoop, Submissions, Handlers, Approvals, Turns, UndoRedo | what a submission does to a thread, and what holds over whole runs |
| Compaction | token estimates and the three ways to shorten a thread |
| Settings, SettingsCodec, SettingsSchema, SettingsInput | settings trees, dotted paths, what a set takes, the flat form in the database |
| SessionManager | the maps of sessions, thread keys and undo managers |
| RateLimit, Routine, ConversationMemory, Learner, Utf8 | five algorithms, one module each |

Where the source updates fields, a class has those fields and its methods say in `ensures` which function of
the old state the new state is. The theorems are lemmas about these functions. Where tasks run at the same
time (the scheduler, and the double-checked locking of sessions) the model is a step relation: one action for
each stretch of code between two lock operations, an action whose guard is false leaves the state alone, and
a theorem about `Exec` or `RunRace` of an arbitrary sequence of actions is a theorem about every interleaving.

The model's answers, tool results, clocks, new identifiers and the text format of JSON are parameters; a
theorem that quantifies over them holds for all of them.

## Where the code and its description differ

The model follows the code. These are the places where a natural reading is false, with what holds instead.

- A job that was "recovered and will be retried" (`src/agent/self_repair.rs:166-168`) is never worked on
  again: `SelfRepair.RecoveredIsNotRetried`. It is already InProgress, so `schedule` refuses it.
- The `help` command recovers a stuck job without looking at the attempt limit. It matters for a limit of zero
  only: since a recovered job never gets stuck again, no job is recovered twice by anyone
  (`SelfRepair.RecoveredAtMostOnce`), and every run stays within the limit exactly if the limit is at least
  one or no job can run at all (`SelfRepair.WithinLimitIff`, `SelfRepair.HelpCanExceedLimit`).
- `undo` is documented as popping a checkpoint (`src/agent/undo.rs:94`) but leaves it on the stack, so all
  undos land on the same one: `UndoRedo.UndosLandOnLatest`.
- The bounded undo stack is a suffix of an unbounded one, except that restoring a checkpoint which the limit
  has pushed out parts the two: `Undo.StepKeepsSuffixIff` says exactly when, `Undo.EvictedRestoreParts` gives
  the run. The redo stacks part exactly when a pop empties the bounded stack alone while there is something
  to redo: `Undo.StepKeepsRedoIff`, `Undo.PopPartsRedo`. Nothing in the program pops.
- Restoring messages drops attachments, so an undo followed by a redo is exact only without them:
  `UndoRedo.UndoRedoRoundTrip`.
- Settings do not survive the database if an optional text reads as JSON, say a number:
  `Settings.RoundTripIff`, `SettingsSchema.NumericTextIsLost`.
- `reset` is documented as restoring the default (`src/settings.rs:684`) but an optional text that is set
  becomes the text "null", and an optional number cannot be reset: `Settings.ResetIsExactIff`, with the
  database URL as the witness in `SettingsSchema.ResetLeavesNullText`.
- Overlaying a map depends on the order of its entries exactly if one entry changes the section that another
  has just set: `Settings.OrderFreeIff`, with "agent" and "agent.name" as the witness in
  `SettingsSchema.SectionOrderMatters`.
- WASM channels are off in the default settings, because the channel section derives its default, but on when a
  section without the key is read: `SettingsInput.EmptyChannelsSwitchWasmOn`.
- Pruning leaves the undo managers of a stale session behind if the session is locked at the second pass:
  `SessionManager.UndoIsPrunedIff`, with a run in `SessionManager.LockedPruneLeavesUndo`.
- A user who comes back while a prune is between its sections gets a new thread whose key the prune then
  removes, so that the next message opens yet another thread: `SessionManager.ReturningUserLosesKey`.
- The limiter's 32-bit counter wraps, so the limit of a window holds exactly below 2^32 requests in it:
  `RateLimit.WindowLimitIff`.

## Model

| member | source | states |
|---|---|---|
| JobState.TerminalIffAbsorbing | src/context/state.rs:34-61 | a state is terminal exactly if no transition leaves it |
| JobState.ClosedIffNoWayBack | src/context/state.rs:34-51 | InProgress is unreachable, over any path of legal transitions, exactly from Completed, Submitted and the terminal states |
| JobState.JobContext.TransitionTo | src/context/state.rs:178-220 | an illegal transition is an error that changes nothing; a legal one sets the state, appends to the bounded history, and sets the start and completion times |
| JobState.JobContext.MarkStuck | src/context/state.rs:260-262 | succeeds exactly from InProgress, with the reason kept in the history |
| JobState.JobContext.AttemptRecovery | src/context/state.rs:265-271 | succeeds exactly from Stuck, counts the attempt and goes to InProgress |
| JobState.StoredHistory | src/context/state.rs:178-220 | in every reachable job the stored history is the last min(n, 200) of all n transitions ever made; they chain, each is legal, the last leads to the current state |
| JobState.CompletedAtIffClosed | src/context/state.rs:208-217 | in every reachable job the completion time is set exactly in Completed, Submitted, Accepted, Failed and Cancelled |
| JobState.StartedAtIsFirstEntry | src/context/state.rs:208-212 | in every reachable job the start time is that of the first transition into InProgress |
| JobState.CompletedAtIsLastClosing | src/context/state.rs:208-217 | in every reachable job the completion time is that of the last logged transition into Completed, Accepted, Failed or Cancelled |
| JobState.HowJobsEnd | src/context/state.rs:34-51 | a job can be cancelled exactly until work on it is over, fail exactly once it was begun and until its end, be completed from InProgress alone, and never go back to Pending |
| JobState.EveryStateIsReached | src/context/state.rs:34-51 | each of the eight states can be reached from Pending |
| JobState.ReentriesSplit | src/context/state.rs:178-271 | every return from Stuck to InProgress is either a counted repair attempt or a plain transition request |
| JobState.TransitionBound | src/context/state.rs:34-51 | a job makes at most 4 + 2 * repair_attempts transitions, plus two for each time Stuck is left otherwise |
| JobState.TransitionBoundIsTight | src/context/state.rs:34-51 | for every number of repair attempts some run reaches the bound |
| ContextManager.Manager.CreateJobForUser | src/context/manager.rs:42-66 | succeeds exactly while fewer than max_jobs jobs are active, adds one pending job under a new id, and keeps the limit |
| ContextManager.Manager.UpdateContext | src/context/manager.rs:79-88 | changes one job only, fails exactly on an unknown id, and keeps the limit on active jobs |
| ContextManager.Manager.RemoveJob | src/context/manager.rs:161-177 | takes one job out and returns it, fails exactly on an unknown id |
| ContextManager.UpdateAddsNoActive | src/context/manager.rs:79-88 | since terminal states are absorbing, no transition of any job adds an active one |
| ContextManager.CreateAddsOne | src/context/manager.rs:42-66 | the check and insert under the lock is the one step that adds an active job, and it adds one |
| Scheduler.StepKeepsInv | src/agent/scheduler.rs:81-163 | each step of schedule, stop, cleanup, a worker, repair, a cancelling tool or the help command keeps the invariant that ties jobs map, live workers, cleanup tasks and lock together |
| Scheduler.ReachableInv | src/agent/scheduler.rs:81-163 | the invariant holds in every interleaving |
| Scheduler.CapacityHolds | src/agent/scheduler.rs:81-96 | in every interleaving the map holds at most max_parallel_jobs entries, at most as many workers run, and at most max_jobs jobs are active |
| Scheduler.OneWorkerPerJob | src/agent/scheduler.rs:81-163 | in no interleaving do two workers run for one job |
| Scheduler.LiveWorkersAreStored | src/agent/scheduler.rs:126-138 | whenever the lock is free every running worker is the handle stored under its own job |
| Scheduler.RemoveTracked | src/agent/scheduler.rs:141-159 | the unconditional second half of a cleanup task never takes a running worker's handle away |
| Scheduler.StopEndSeals | src/agent/scheduler.rs:398-444 | stop leaves its job in a state from which InProgress cannot be reached |
| Scheduler.StoppedForGood | src/agent/scheduler.rs:398-444 | after the last step of stop no interleaving ever runs the job again |
| SchedulerTasks.Host.CreateJob | src/context/manager.rs:42-66 | performs the creating action of the step relation |
| SchedulerTasks.Host.ScheduleLocked | src/agent/scheduler.rs:81-131 | schedule up to the spawn: starts a worker exactly if the job is not stored, the map has room, and the job is known and pending or stuck; says which of these fails, and changes nothing then |
| SchedulerTasks.Host.ScheduleInsert | src/agent/scheduler.rs:136-142 | stores the new worker's handle, spawns its cleanup task, releases the lock |
| SchedulerTasks.Host.CleanupCheck | src/agent/scheduler.rs:143-150 | the cleanup task's check finds its job finished exactly if it has no entry or a dead worker |
| SchedulerTasks.Host.CleanupRemove | src/agent/scheduler.rs:152-155 | removes the entry without a second check, and still every running worker is stored |
| SchedulerTasks.Host.StopLocked | src/agent/scheduler.rs:398-402 | takes the handle out of the map if there is one, and changes nothing otherwise |
| SchedulerTasks.Host.StopFinish | src/agent/scheduler.rs:405-424 | aborts, cancels and releases; the job is over: no entry, no worker, no way back |
| SchedulerTasks.Host.Stop | src/agent/scheduler.rs:398-444 | with nothing in between, removes one entry; its job is over, and jobs that were over stay so |
| SchedulerTasks.Host.StopAll | src/agent/scheduler.rs:504-510 | with nothing in between, empties the map, leaves no worker, and every job that was in it is over |
| SchedulerTasks.StopIsFinal | src/agent/scheduler.rs:398-444 | stop on a scheduled job is final whatever the other tasks do during its grace period and ever after |
| SchedulerTasks.SlotIsFreed | src/agent/scheduler.rs:140-159 | the slot of a dead worker can always be freed by its own cleanup task, which frees nothing else |
| SchedulerTasks.ScheduleUsesRoom | src/agent/scheduler.rs:81-138 | from every reachable state with the lock free, schedule leaves the job in the map with one new live worker, and adds nothing else, exactly if it was not there, the map had room, and the job is pending or stuck; otherwise nothing changes |
| SchedulerTasks.CapacityCanBeFilled | src/agent/scheduler.rs:91-95 | for every limit, as far as jobs may be created, a run fills the map to the last place with running workers |
| SchedulerTasks.CreateTakesEffect | src/context/manager.rs:48-59 | while fewer jobs than allowed are active, a new pending job is created |
| SchedulerTasks.StopCancels | src/agent/scheduler.rs:409-424 | the end of stop kills the worker and cancels the job, unless work on it was over before |
| SchedulerTasks.MarkTakesEffect | src/agent/worker.rs:879-926 | a worker with its job in progress records completed, failed or stuck, with the reason in the history |
| SchedulerTasks.RepairTakesEffect | src/agent/self_repair.rs:117-170 | a stuck job with attempts left is taken back to InProgress by one pass of the repair loop |
| SchedulerTasks.CleanupFinishedLosesAWorker | src/agent/scheduler.rs:467-501 | a run in which cleanup_finished between the halves of a cleanup task leaves a running worker without an entry |
| SelfRepair.DetectStuckJobs | src/agent/self_repair.rs:117-145 | reports exactly the listed jobs that are stuck when they are looked up, each under its own lock, with the attempt count then |
| SelfRepair.RepairStuckJob | src/agent/self_repair.rs:147-183 | gives up exactly at the limit and then changes nothing; else recovers; says exactly when it succeeds, retries or fails |
| SelfRepair.AttemptLimitHolds | src/agent/self_repair.rs:147-183 | while the repair loop is the only recoverer, repair_attempts never exceeds max_repair_attempts in any interleaving, for a limit of zero too |
| SelfRepair.RecoveredAtMostOnce | src/agent/self_repair.rs:147-183 | in every interleaving, help included, no job is recovered twice, and a stuck job has not been recovered before |
| SelfRepair.WithinLimitIff | src/agent/self_repair.rs:147-156 | every run stays within max_repair_attempts exactly if that is at least one, or no job can ever run |
| SelfRepair.HelpIgnoresLimit | src/agent/agent_loop.rs:2630-2664 | whatever the limit, the help command recovers every stuck job of every interleaving, and its count is then one |
| SelfRepair.HelpCanExceedLimit | src/agent/agent_loop.rs:2630-2664 | with a limit of zero and room for a job, a run in which help takes a job over the limit |
| SelfRepair.RecoveredIsNotRetried | src/agent/self_repair.rs:159-168 | after a recovery, in every continuation, no worker ever works on the job again: it stays InProgress until it is cancelled or removed |
| SelfRepair.ContextsInRuns | src/context/state.rs:178-220 | every job of every interleaving is one that a run of its own operations leads to, so the history and completion-time properties hold of it |
| SelfRepair.StepOnContexts | src/agent/scheduler.rs:81-163 | beside creation and removal, each action of any task performs at most one operation on one job context |
| SelfRepair.JobRunIsBounded | src/context/state.rs:34-51 | in every interleaving a job makes at most 4 + 2 * repair_attempts transitions, so at most six, and two more each time it is scheduled anew out of Stuck |
| Session.Thread.Start | src/agent/session.rs:233-240 | appends a turn numbered by its index, with its attachments, and starts processing |
| Session.Thread.Complete | src/agent/session.rs:243-249 | answers the last turn and goes idle |
| Session.Thread.Fail | src/agent/session.rs:252-258 | fails the last turn and goes idle |
| Session.Thread.Interrupt | src/agent/session.rs:292-298 | interrupts the last turn; a stored request stays stored |
| Session.Thread.AwaitApproval | src/agent/session.rs:261-265 | stores the request and waits |
| Session.Thread.TakePendingApproval | src/agent/session.rs:268-270 | hands over the stored request and keeps the state |
| Session.Thread.EnterAuthMode | src/agent/session.rs:281-284 | waits for a token for the extension, whatever the state |
| Session.Thread.BuildMessages | src/agent/session.rs:309-325 | the messages of all turns in order, a response right after its input |
| Session.Thread.TruncateTurns | src/agent/session.rs:335-344 | keeps the most recent turns and numbers them from zero |
| Session.Thread.RestoreFromMessages | src/agent/session.rs:350-376 | rebuilds the turns from messages: each user message opens one, an assistant message right after it answers it, all else is skipped |
| Session.RestoreKeepsASubsequence | src/agent/session.rs:350-376 | for any message list, what comes back is a subsequence of its roles and texts |
| Session.RestoreIsExactIff | src/agent/session.rs:350-376 | a message list comes back unchanged exactly if it holds only plain user messages and plain assistant messages directly after a user |
| Session.RestoreIsIdempotent | src/agent/session.rs:309-376 | restoring what was restored changes nothing |
| Session.SnapshotIsExactIff | src/agent/session.rs:309-376 | a thread's own messages restore to themselves exactly if no turn has attachments |
| Session.TurnsAlternate | src/agent/session.rs:309-325 | the messages of any thread alternate and start with the user |
| Session.NumbersStay | src/agent/session.rs:233-376 | every thread operation keeps each turn's number equal to its index |
| Undo.UndoManager.TakeCheckpoint | src/agent/undo.rs:74-91 | empties the redo stack, pushes, and drops the oldest until the limit holds |
| Undo.UndoManager.Undo | src/agent/undo.rs:96-116 | saves the current state for redo and returns the latest checkpoint, which stays |
| Undo.UndoManager.PopUndo | src/agent/undo.rs:119-121 | takes the latest checkpoint off |
| Undo.UndoManager.Redo | src/agent/undo.rs:124-126 | takes the latest undone state off the redo stack |
| Undo.UndoManager.Clear | src/agent/undo.rs:162-165 | empties both stacks |
| Undo.UndoManager.Restore | src/agent/undo.rs:170-184 | returns the checkpoint with the id and drops it with all later ones; an unknown id changes nothing |
| Undo.StepKeepsSuffixIff | src/agent/undo.rs:74-184 | one call keeps the bounded stack a suffix of an unbounded manager's exactly unless it restores an evicted checkpoint from a stack that is not empty |
| Undo.BoundedIsSuffix | src/agent/undo.rs:74-184 | in every run without such a restore the bounded stack is a suffix of the unbounded one |
| Undo.AnswersAreIdeal | src/agent/undo.rs:96-184 | in every such run each checkpoint that undo, pop or restore hands back is the one the unbounded manager hands back, and so for redo if no pop empties the bounded stack alone |
| Undo.StepKeepsRedoIff | src/agent/undo.rs:74-184 | one call keeps the redo stacks equal, or the bounded manager without anything to undo or redo, exactly unless it pops the bounded stack empty alone while there is something to redo |
| Undo.PopPartsRedo | src/agent/undo.rs:119-126 | a run with such a pop, after which redo hands back another checkpoint |
| Undo.NeverOverLimit | src/agent/undo.rs:74-91 | the stack never holds more than max_checkpoints |
| Undo.EvictedRestoreParts | src/agent/undo.rs:170-184 | a run whose restore of an evicted checkpoint makes the two stacks differ |
| Turns.TurnCanBeUndone | src/agent/agent_loop.rs:1073-1088 | in every run: admitted input on a ready thread, then undo, gives the conversation as it was before the input, or as compaction left it, whatever the model and the tools did |
| Turns.UndoneTurnLeavesMessages | src/agent/agent_loop.rs:1073-1088 | without compaction the messages come back unchanged exactly if the earlier turns had no attachments |
| Turns.InputGoesOn | src/agent/agent_loop.rs:1090-1235 | input opens a turn with its text and attachments; by the model's first answer it is answered, it fails, the thread waits for a new request for the first call, or that call is run |
| Turns.ApprovedTurnGoesOn | src/agent/agent_loop.rs:2061-2271 | after an approval and the run of its tool the turn goes on in the same four ways; a text completes it as its response |
| Turns.ApprovedTokenRequest | src/agent/agent_loop.rs:2159-2186 | an approved tool that asks for a token completes the turn with the instructions, and the thread waits for the token |
| Turns.RejectionEndsTurn | src/agent/agent_loop.rs:2283-2289 | a rejection drops the request, runs nothing, and the thread takes input again |
| Turns.BusyInputIsRejected | src/agent/agent_loop.rs:962-982 | input to a busy or completed thread, or input that is not admitted, changes nothing |
| Turns.TokenEndsWait | src/agent/agent_loop.rs:734-747 | input to a thread that waits for a token ends the wait if the token is taken, and changes nothing else |
| Turns.InterruptMarksTurn | src/agent/agent_loop.rs:1937-1955 | an interrupt marks the last turn of a busy thread and lets the thread take input again |
| Turns.ClearForgets | src/agent/agent_loop.rs:2006-2011 | a clear leaves an idle thread without turns, with nothing to undo or redo |
| Turns.CompactShortens | src/agent/agent_loop.rs:1968-1980 | compacting changes the turns alone |
| Turns.ResumeRestores | src/agent/agent_loop.rs:2484-2507 | resuming a checkpoint restores its messages and takes it off the stack with all later ones; its id is gone |
| Turns.UnknownResumeKeeps | src/agent/agent_loop.rs:2504-2506 | resuming an unknown checkpoint leaves the thread as it is |
| Turns.OtherKeeps | src/agent/agent_loop.rs:748-755 | any other submission leaves the thread as it is, but ends a wait for a token |
| UndoRedo.UndosLandOnLatest | src/agent/agent_loop.rs:1871-1907 | k undos all restore the same, latest checkpoint, and each adds one redo entry |
| UndoRedo.RedosReverseUndos | src/agent/agent_loop.rs:1871-1935 | k redos after k undos bring back the undo manager, and the thread as its own messages restore it |
| UndoRedo.UndoRedoRoundTrip | src/agent/agent_loop.rs:1871-1935 | through submissions, with something to undo: k undos then k redos restore the messages exactly if k is zero or no turn has attachments |
| AgentLoop.RunCalls | src/agent/agent_loop.rs:1515-1720 | runs the calls of one answer in order: it stops at the first that is gated and not approved for good or a destructive command, or after the first that wants a token; every call before that runs |
| AgentLoop.ReachedCallIff | src/agent/agent_loop.rs:1516-1569 | a call that is reached pauses the batch exactly if its tool is gated and either not approved for good or a destructive shell command; otherwise it is run |
| AgentLoop.LoopGoesOn | src/agent/agent_loop.rs:1406-1724 | the loop runs every call of every answer that needs neither user nor token, and ends as the first other answer says; ten such answers are too many |
| AgentLoop.RunAgenticLoop | src/agent/agent_loop.rs:1406-1724 | asks the model at most ten times and ends with a text, a request for approval or a failure |
| AgentLoop.LoopIsAllowed | src/agent/agent_loop.rs:1516-1569 | the loop itself runs only ungated tools and gated ones approved for good, never a destructive shell command; it stops only at a gated tool |
| Submissions.ThreadsAreSettled | src/agent/agent_loop.rs:945-1238 | after any submissions to any threads: no thread is processing, an awaiting one has a stored request, turn numbers are indices, the undo stack is within its limit |
| Submissions.HandleKeepsOk | src/agent/agent_loop.rs:712-844 | every single submission keeps that, on every thread |
| Submissions.HandleFrame | src/agent/agent_loop.rs:712-844 | a submission changes its own thread only |
| Handlers.SessionHost.HandleMessage | src/agent/agent_loop.rs:712-844 | dispatches a submission as the state machine says, ending a wait for a token unless it is user input |
| Handlers.HandleIsLocal | src/agent/agent_loop.rs:712-844 | a submission does to its own thread, the approved tools and the log what it would do if the other threads were not there |
| Handlers.SessionHost.ProcessUserInput | src/agent/agent_loop.rs:945-1238 | rejects input while busy; else compacts, checkpoints, starts a turn, runs the loop and settles the turn |
| Handlers.SessionHost.ProcessApproval | src/agent/agent_loop.rs:2017-2306 | takes the stored request, puts it back on a wrong id, drops it on rejection, runs its tool and goes on with the loop on approval |
| Handlers.Conversation.ProcessAuthToken | src/agent/agent_loop.rs:2312-2444 | a rejected token leaves the thread waiting for another |
| Handlers.Conversation.ProcessInterrupt | src/agent/agent_loop.rs:1937-1955 | interrupts exactly a thread that processes or awaits approval |
| Handlers.Conversation.ProcessCompact | src/agent/agent_loop.rs:1957-1994 | compacts the turns and nothing else |
| Handlers.Conversation.ProcessUndo | src/agent/agent_loop.rs:1871-1907 | restores the latest checkpoint and saves the current messages for redo |
| Handlers.Conversation.ProcessRedo | src/agent/agent_loop.rs:1909-1935 | restores the latest undone state |
| Handlers.Conversation.ProcessResume | src/agent/agent_loop.rs:2484-2507 | restores a checkpoint by id, or fails and changes nothing |
| Handlers.Conversation.ProcessClear | src/agent/agent_loop.rs:1996-2014 | removes turns and undo history, goes idle |
| Approvals.RunsRequestIff | src/agent/agent_loop.rs:2026-2109 | a request's tool runs in a submission exactly if that approves, reaches the thread that waits for the request, and names no other; and it is the tool asked for |
| Approvals.MismatchChangesNothing | src/agent/agent_loop.rs:2047-2059 | an answer that names another request leaves the whole session unchanged |
| Approvals.RequestRunsAtMostOnce | src/agent/agent_loop.rs:2017-2306 | in every run of submissions a request's tool runs at most once |
| Approvals.EveryRunIsJustified | src/agent/agent_loop.rs:1516-1569 | in every run a gated tool runs only right after its own grant, or because an earlier grant named it for good; a destructive command never on a standing grant |
| Approvals.GrantedForGood | src/agent/agent_loop.rs:1521-1569 | in every continuation of every run, after a grant for good the loop stops for that tool at destructive shell commands alone, and no thread is asked about it again unless it is the shell |
| Approvals.LeavingIsDead | src/agent/agent_loop.rs:712-844 | whatever takes a thread out of waiting, no thread waits for its request from then on |
| Approvals.ControlsLeave | src/agent/agent_loop.rs:1871-2014 | interrupt, clear, and undo with a checkpoint take a thread out of waiting |
| Approvals.DeadNeverRuns | src/agent/agent_loop.rs:2017-2306 | a request nobody waits for, left behind by interrupt, clear or undo or answered, never runs in any continuation |
| Compaction.Analyze | src/agent/context_monitor.rs:161-184 | totals per role, which add up to the total |
| Compaction.SuggestionsAreMonotone | src/agent/context_monitor.rs:75-106 | once compaction is suggested it stays suggested as the context grows, and keeps no more turns |
| Compaction.DefaultSuggestions | src/agent/context_monitor.rs:88-106 | with the default limit and threshold: nothing below 80000 tokens, then the workspace, above 85000 a summary with five turns, above 95000 three turns |
| Compaction.TurnsLeft | src/agent/compaction.rs:80-170 | how many turns each strategy leaves: what it keeps, ten with a workspace, five without, and all if a summary fails |
| Compaction.WordsAreCounted | src/agent/context_monitor.rs:126-134 | whitespace before a word does not count, a word and the whitespace after it count one |
| Compaction.TokensPerTenWords | src/agent/context_monitor.rs:126-134 | ten words cost thirteen tokens, and a message four more |
| Compaction.TruncatedIsSuffix | src/agent/session.rs:335-344 | truncation leaves a suffix of the messages and takes exactly the oldest turns' |
| Compaction.SavingIsExact | src/agent/compaction.rs:45-77 | the tokens saved are those of the dropped turns, at least four for each |
| Compaction.Compact | src/agent/compaction.rs:45-170 | the exact turns left and removed and the exact saving for each strategy; fails exactly if a needed summary fails, and then changes nothing |
| Settings.CollectSettingsJson | src/settings.rs:709-729 | adds exactly the entries of the tree that are not objects, each under its dotted path |
| Settings.SettingsStore.ToDbMap | src/settings.rs:554-563 | the map holds each value that is not an object under its path, and nothing else |
| Settings.SettingsStore.SetPath | src/settings.rs:608-682 | navigates, infers the type from the old value, writes and deserializes again; every error leaves the settings unchanged |
| Settings.FromDbMap | src/settings.rs:518-549 | overlays the entries on the defaults in the order given, skipping foreign keys and failed entries |
| Settings.ConformingIsFixed | src/settings.rs:678-679 | serialized settings deserialize to themselves |
| Settings.SetIsLocal | src/settings.rs:608-682 | a set of the whole tree reads and writes one entry only; a path that names none changes nothing |
| Settings.ApplyItemAtLeaf | src/settings.rs:523-546 | applying one entry changes the leaf it names as its own old value and schema say, and no other leaf |
| Settings.OverlayIsPointwise | src/settings.rs:518-549 | after an overlay in any order each leaf is decided by its own entry and its own old value |
| Settings.OrderIsIrrelevant | src/settings.rs:518-549 | the overlay is the same for every iteration order of a map that names no whole section |
| Settings.FlatOrderIsIrrelevant | src/settings.rs:518-563 | a flattened map can be overlaid in any order, on any settings, with one result |
| Settings.OrderFreeIff | src/settings.rs:518-549 | for any map: the overlay is the same in every order exactly if no entry changes the section that another entry of the map has just set |
| Settings.RoundTripIff | src/settings.rs:518-563 | for any text format that reads back the trees of the schema: from_db_map of to_db_map is the identity, in every order, exactly if no text over a null default reads as JSON |
| Settings.ResetIsExactIff | src/settings.rs:685-692 | reset gives an entry its default exactly if the default is not null or the entry is null or an array |
| Settings.SplitOfJoin | src/settings.rs:612 | splitting a joined path gives the names back when none has a dot |
| Settings.ForeignByFirstName | src/settings.rs:513-527 | a skipped key starts with the name extensions or channel |
| Settings.ForeignIsSkipped | src/settings.rs:522-527 | keys of extensions and of channel switches leave the settings alone |
| SettingsInput.BooleanTakesIff | src/settings.rs:633-638 | over a boolean a set takes "true" and "false" and stores that value; every other text is refused and changes nothing |
| SettingsInput.CountTakesIff | src/settings.rs:639-644 | over a number that is not negative a set stores the number that the digits write, by their places, after a plus sign or not, exactly if it has 64 bits and the type takes it; every other text is refused, with the error said |
| SettingsInput.NegativeTakesIff | src/settings.rs:645-649 | over a negative number the same with either sign, for signed 64-bit numbers |
| SettingsInput.TextTakesIff | src/settings.rs:668 | over a text a set stores any text as it is, unless the names are limited |
| SettingsInput.ListTakesIff | src/settings.rs:664-665 | over a list a set takes JSON lists of texts and nothing else, with the error said |
| SettingsInput.UnsetTakesIff | src/settings.rs:659-663 | over an unset option a set takes null, JSON of its type, and other text as text if its type takes that |
| SettingsInput.UnknownPathOutcome | src/settings.rs:617-628 | a path that names nothing is not found, has no parent, is ignored, or is another name of a field, and which of these |
| SettingsInput.YesIsRefused | src/settings.rs:633-638 | the heartbeat cannot be switched by "yes" |
| SettingsInput.EmptyChannelsSwitchWasmOn | src/settings.rs:148-184 | an empty channel section switches WASM channels on, which are off by default |
| SettingsInput.AbsentLeafIsDefault | src/settings.rs:677-679 | a section set without some key gets that key's deserialization default |
| SettingsCodec.SomeCodecIsLawful | src/settings.rs:529-536 | for every schema the laws that the settings ask of JSON text can be met together |
| SettingsSchema.RootIsWellFormed | src/settings.rs:10-506 | the theorems on settings apply to the program's own sections, fields and defaults |
| SettingsSchema.NumericTextIsLost | src/settings.rs:659-663 | a database URL that reads as a number never survives the round trip |
| SettingsSchema.ResetLeavesNullText | src/settings.rs:684-692 | resetting a database URL that is set succeeds and makes it the text "null", whatever the other settings are |
| SettingsSchema.SectionOrderMatters | src/settings.rs:518-549 | a map with keys "agent" and "agent.name" that gives two results in two orders |
| SessionManager.Manager.GetOrCreateSession | src/agent/session_manager.rs:41-60 | returns the user's session, a new one only if there was none |
| SessionManager.Manager.ResolveThread | src/agent/session_manager.rs:65-111 | returns the mapped thread if it is still in the user's session and changes nothing more; else maps a new one |
| SessionManager.Manager.RegisterThread | src/agent/session_manager.rs:116-146 | maps a loaded thread under its own id, keeps an existing undo manager and an existing session |
| SessionManager.Manager.GetUndoManager | src/agent/session_manager.rs:149-168 | returns the thread's undo manager, a new one only if there was none |
| SessionManager.Manager.PruneStaleSessions | src/agent/session_manager.rs:173-243 | removes what the two passes found and returns the number of sessions removed |
| SessionManager.Manager.FindStale | src/agent/session_manager.rs:176-191 | finds exactly the idle sessions that are not locked |
| SessionManager.Manager.ThreadsOf | src/agent/session_manager.rs:197-208 | collects exactly the threads of those that are not locked at the second pass |
| SessionManager.StepKeepsAgree | src/agent/session_manager.rs:65-243 | no call, and no single section of a prune, brings in an id newer than the newest, so a new thread is nobody's |
| SessionManager.StepKeepsKeyedIff | src/agent/session_manager.rs:65-243 | every key keeps having a session through every call, exactly but for the time between two sections of a prune |
| SessionManager.PruneInSections | src/agent/session_manager.rs:210-232 | a prune with nothing in between is its three write sections in a row, which runs also take one by one |
| SessionManager.StepKeepsResolutionIff | src/agent/session_manager.rs:65-243 | a call, or a single section of a prune, breaks what a key resolves to exactly if it registers the key anew, prunes its user or drops the thread |
| SessionManager.ResolveIsStable | src/agent/session_manager.rs:65-111 | after any run, and any calls that do not disturb a key once it is resolved, resolving it again gives the same thread and changes nothing |
| SessionManager.NewKeyGetsNewThread | src/agent/session_manager.rs:65-111 | after any run, a new key gets a thread that nobody had, in its user's own session, with an undo manager; all other keys and sessions stay |
| SessionManager.RegisteredResolvesIff | src/agent/session_manager.rs:116-146 | a registered key resolves to its thread exactly if the thread is in the session that the user has then; an undo manager that was there stays, and so does every other key |
| SessionManager.RegisteredIsFound | src/agent/session_manager.rs:116-146 | after a thread of the user was registered, resolving its key finds it and changes nothing |
| SessionManager.NewSessionIsNotStale | src/agent/session_manager.rs:54-59 | a session that was just made is empty and not stale |
| SessionManager.PruneIsExact | src/agent/session_manager.rs:173-243 | after any run, pruning removes exactly the stale users and their keys; every other key stays and resolves exactly as before |
| SessionManager.UndoIsPrunedIff | src/agent/session_manager.rs:197-232 | a thread loses its undo manager exactly if a pruned session that was not locked at the second pass holds it |
| SessionManager.LockedPruneLeavesUndo | src/agent/session_manager.rs:197-232 | a run in which a prune takes the only session and leaves its undo manager |
| SessionManager.ReturningUserLosesKey | src/agent/session_manager.rs:210-224 | a run in which a user comes back between two sections of a prune and the prune takes the new key too |
| SessionManager.UndoIsKeptIff | src/agent/session_manager.rs:65-243 | the same undo manager stays with a thread through every call and section of a prune that does not drop it |
| SessionManager.OneObjectPerKey | src/agent/session_manager.rs:41-60 | whatever the map held before, in every interleaving of the double-checked calls at most one session is created for a user, none if there was one, and all calls get the same; get_undo_manager (lines 149-168) is the same protocol over thread ids |
| SessionManager.CallsFinish | src/agent/session_manager.rs:41-60 | a call is finished after two of its lock sections, whatever the others do |
| RateLimit.RateLimitState.Admit | src/channels/http.rs:150-167 | starts a new window once the old one is a minute old, counts, and passes up to sixty |
| RateLimit.CounterIsRank | src/channels/http.rs:150-157 | the counter is the number of requests in the open window, modulo 2^32 |
| RateLimit.WindowLimitIff | src/channels/http.rs:54-55 | at most sixty requests pass in a window exactly if it gets fewer than 2^32 |
| RateLimit.WindowsAreApart | src/channels/http.rs:150-157 | requests two windows apart are at least a minute apart |
| RateLimit.MinuteLimit | src/channels/http.rs:54-55 | at most 120 requests pass in any half-open minute, wherever it begins |
| RateLimit.MinuteLimitIsTight | src/channels/http.rs:150-167 | a timed run in which 120 pass within a minute |
| Routine.ExecuteFullJob | src/agent/routine_engine.rs:521-617 | for every oracle: what the model is shown each time, at most max_iterations requests, and the report that the first answer without tool calls, or the limit, leads to |
| Routine.RequestsAreComplete | src/agent/routine_engine.rs:587-614 | before every request each assistant message with calls is followed by exactly one result a call, in order with matching ids, and there is no other result |
| Routine.ReplyDecidesReport | src/agent/routine_engine.rs:573-586 | a run that ends with a text: a blank one is an error, one with ROUTINE_OK anywhere is silent, any other needs attention and is handed on without the whitespace around it |
| Routine.AnswersAreShown | src/agent/routine_engine.rs:587-614 | every later request shows each answer with its calls, followed by a result for each call with what the tool answered, an error with a mark |
| Routine.PromptIsShown | src/agent/routine_engine.rs:547 | every request begins with the prompt |
| Routine.TokensAddUp | src/agent/routine_engine.rs:570 | the tokens of the answers add up |
| Routine.AsI32IsLowBits | src/agent/routine_engine.rs:560 | the reported tokens are the low 32 bits of the sum, as a signed number |
| Routine.RunIsDetermined | src/agent/routine_engine.rs:552-616 | the length and the outcome of a run are decided by the answers alone |
| ConversationMemory.Memory.Add | src/context/memory.rs:114-130 | pushes a message and trims |
| ConversationMemory.KeptIsDirect | src/context/memory.rs:114-130 | for any adds, what is kept is the latest messages, or the first system message that came to the front followed by the latest after it |
| ConversationMemory.KeptLength | src/context/memory.rs:114-130 | with max_messages at least one, min(adds, max_messages) messages are kept |
| ConversationMemory.SystemStaysInFront | src/context/memory.rs:118-126 | a system message that reaches the front is never evicted |
| Learner.EstimationLearner.Record | src/estimation/learner.rs:56-95 | updates one category by the exponential moving average of both ratios and both errors |
| Learner.EstimationLearner.SetAlpha | src/estimation/learner.rs:136-138 | clamps alpha to 0.01 to 0.5 |
| Learner.FactorWithinError | src/estimation/learner.rs:83-94 | over any samples the factor is no further from one than the error rate, and as far exactly if all ratios lie on one side of one |
| Learner.FactorInHull | src/estimation/learner.rs:83-85 | the factor stays between any bounds that hold one and all ratios |
| Learner.FactorStaysPositive | src/estimation/learner.rs:83-85 | non-negative ratios keep the factor positive |
| Learner.FactorConverges | src/estimation/learner.rs:83-94 | a constant ratio r gives distance (1 - alpha)^n * abs(1 - r), and the error rate makes up the rest |
| Learner.CategoriesAreSeparate | src/estimation/learner.rs:56-95 | in every run each category has learnt from its own samples since the last clear, alone |
| Learner.FactorsWithinErrors | src/estimation/learner.rs:83-94 | in every reachable learner both factors are within their error rates of one |
| Learner.ConfidenceInRange | src/estimation/learner.rs:112-123 | in every reachable learner confidence lies in 0.2 to 1 |
| Learner.AdjustedTimeIsReal | src/estimation/learner.rs:98-109 | in every reachable learner an adjusted duration is not negative |
| Learner.AdjustedBySamples | src/estimation/learner.rs:98-109 | in every reachable learner estimates are multiplied by the factors of the category's own samples once there are enough, and handed back as they are before |
| Learner.ConfidenceBySamples | src/estimation/learner.rs:112-123 | 0.2 without samples, 0.3 with too few, at least 0.5 with enough, and 1 exactly with a hundred or more and no error |
| Learner.ConfidenceIsMonotone | src/estimation/learner.rs:112-123 | more samples and smaller errors never lower the confidence |
| Learner.AlphaIsTaken | src/estimation/learner.rs:136-138 | an alpha within the bounds is taken as it is, one outside gives the nearest bound |
| Learner.RatioMeasures | src/estimation/learner.rs:66-81 | a ratio times its estimate is what was measured; without an estimate it is one |
| Utf8.BoundaryIffNoTail | src/util.rs:8-17 | in text valid by the grammar of RFC 3629, section 4, a byte is a continuation byte exactly if cutting before it leaves invalid text on either side |
| Utf8.IsCharBoundaryIff | src/util.rs:8-17 | the byte test finds exactly the boundaries of the grammar |
| Utf8.FloorCharBoundary | src/util.rs:8-17 | the largest character boundary at or before the position, at most three bytes back |
| Utf8.Utf8Floor | src/tracing_fmt.rs:93-101 | the same for a position inside a buffer; any bytes give a position not after the one asked for |
| Utf8.ValidAppend | src/tracing_fmt.rs:115-124 | valid texts put together are valid |
| Utf8.EventBuffer.Write | src/tracing_fmt.rs:77-81 | appends all the data |
| Utf8.OneNewlineGoes | src/tracing_fmt.rs:116-122 | one newline at the end of the cut text is taken off, and nothing else |
| Utf8.EventBuffer.Output | src/tracing_fmt.rs:103-146 | text that fits is untouched; longer text is cut at the floor, loses one newline and gets the note; valid text stays valid; at most max_bytes plus the note |

## Left out

- Model answers, tool execution, the safety layer, the workspace and the database: they are arbitrary oracles with success and failure.
- Clocks are integer parameters, new UUIDs are counters; the abort of a worker task takes effect at once, and the 100 ms that stop waits are any number of steps of other tasks.
- Scheduler: subtasks and batches; the memories kept beside the job contexts; the messages to a worker (start, stop, ping), which a worker may or may not heed; liveness, that is, that a worker or a cleanup task gets its turn.
- Scheduler.CapacityHolds: covers every task but `cleanup_finished`, which nothing calls; `SchedulerTasks.CleanupFinishedLosesAWorker` shows why.
- JobState.TransitionBound: repair attempts are unbounded numbers, the source counts in 32 bits.
- JobState: cost, token budget and elapsed time of a job, which the state machine does not read.
- Worker: its loop and its plan execution appear through the job states they record and the exit of the task.
- Approvals.RequestRunsAtMostOnce: submissions of a session are handled one after the other, as the agent's message loop does.
- AgentLoop.RunAgenticLoop: the messages that the loop builds up for the model and the tool calls recorded in a turn are not kept; after a pause for approval they need not be complete. The set of tools that need approval is fixed for a run, and when no answer is left the model counts as failed.
- Submissions: new thread, switch thread, summaries, suggestions, heartbeat and system commands, which change no turn of the thread.
- Undo.BoundedIsSuffix: is false when an evicted checkpoint is restored, so it requires that none is; `Undo.StepKeepsSuffixIff` gives the exact condition for each call.
- Undo.AnswersAreIdeal: is false for redo after a pop that goes too far, so it requires that there is none; `Undo.StepKeepsRedoIff` gives the exact condition for each call.
- Compaction: the text of summaries and of what goes to the workspace; the token ratio 1.3 is the fraction 13/10, and the thresholds are compared as exact numbers.
- Settings.FromDbMap: the JSON text format is a parameter with laws: null, booleans and 64-bit integers read back, no string reads as itself, and so do the arrays and objects that have the shape of the schema or of a part of it, hence no deeper than it and with the integers its types allow; no field of the settings is a float.
- Settings.SetIsLocal: a section given as a JSON array instead of an object is rejected here, where serde would take it by position; an old name of a field counts as a second copy, which it always is in a serialized tree.
- Settings.OrderIsIrrelevant: requires that no key names a whole section; `Settings.OrderFreeIff` is the statement for every map.
- SessionManager.ResolveIsStable: calls are made one after the other; two at a time for one new key may both make a thread.
- SessionManager.PruneStaleSessions: the method runs its passes and sections with nothing in between, with the users whose sessions are locked as parameters of each pass; in runs of calls the three write sections also occur one by one, for any users and threads that the passes may have found.
- RateLimit.MinuteLimit: requires fewer than 2^32 requests in each window, see `RateLimit.WindowLimitIff`; bookkeeping of pending responses.
- Routine.ExecuteFullJob: how one tool call is checked and run; the global cap on routine runs, which is checked before a run is spawned and so can be exceeded.
- Learner.FactorWithinError: floats are reals, so rounding is not covered, and a ratio that is too long to parse does not occur.
- Memory actions in src/context/memory.rs, which are counters and folds.
- CLI, REPL, OAuth, onboarding, configuration from the environment, channels and webhook server, heartbeat, hooks.
