# Verified model of the coworker platform's engines

This Dafny project models the durable engines of the backend under `services/app` and proves what they
promise. The rows an engine reads and writes are its state; each transaction is one step, except where
the point of a property is what happens inside the transaction. `dafny verify dfyconfig.toml` checks
everything.

| file | models |
|---|---|
| `Base.dfy`, `Rows.dfy`, `Approvals.dfy`, `Executions.dfy` | shared datatypes, task and approval statuses, the latest approval row of a call, the history of executions |
| `Gates.dfy` | permission profiles, organization floors, organization rules, standing policies, and the three gates built from them |
| `Chat.dfy`, `ChatLaws.dfy` | resolution of one assistant message's tool calls by any number of concurrent walkers; what a walk stores and runs, and why |
| `ChatTurns.dfy`, `TurnLaws.dfy` | the loop of a chat turn, over what it sees of a conversation; what it leaves, sends and ends for |
| `Conversations.dfy`, `ConversationRuns.dfy` | whole conversations with regenerated answers, one turn after the other; concrete runs |
| `Interleaving.dfy`, `TurnRuns.dfy`, `LostCalls.dfy`, `Overlaps.dfy` | any number of chat turns of one conversation at the same time, query by query; that an undisturbed turn is the turn above; which calls they leave behind; concrete interleavings |
| `Transcript.dfy`, `Tasks.dfy`, `TaskLaws.dfy` | the background task engine with its stored transcript, its workers and the people who answer and decide; what decisions and one activation bring about |
| `AnswerRace.dfy`, `AnswerRuns.dfy` | the same engine when reading a question and writing its answer are separate steps; concrete runs |
| `Workflow.dfy`, `WorkflowLaws.dfy` | the workflow engine as a goto machine, its steps, decisions and checkpoints; where control goes, and why steps complete and runs fail |
| `WorkflowRace.dfy` | the same engine when advances of one run overlap |
| `Teams.dfy`, `TeamLaws.dfy` | agent-team runs in the three collaboration patterns; who gets which task, and how runs end |
| `Crawler.dfy`, `CrawlLaws.dfy` | the bounded breadth-first crawl; what the rules let it visit |
| `Marketplace.dfy` | the dependency walk of an installation |
| `Bundle.dfy` | renaming a coworker through the bundle placeholder |
| `Consensus.dfy` | reading, recording and tallying votes |
| `LogFrames.dfy` | the container log demultiplexer |

Every engine appears twice. A pure state machine says what one step does, and the theorems quantify over
every sequence of its events. A class or method in the form of the source (fields assigned in place, loops,
early returns) is proved to compute exactly that step, so the theorems speak about the imperative code. The
`...Laws` files say what the step functions must bring about without naming them: in the terms of the rows, of the
events and of what an engine finds outside. Several of these laws leave no choice, so nothing but the step function
satisfies them.

What the proofs brought to light, all of it behaviour of the code as it stands:

- A chat tool can run twice for one call when its transaction dies between the execution and the commit
  (`Chat.CrashAfterExecutionRunsTwice`). The exact count is `Chat.ExecutedOnceUnlessLost`: the executions of a
  call exceed those lost in crashes by at most one.
- Regenerating an earlier answer while a later message waits for an approval, when the model then calls a tool,
  leaves the waiting message behind a newer one, and ordinary turns look only at the newest message with tool
  calls (`ConversationRuns.RegenerationLosesACall`). The next turn sends the model a call without a result
  (`Conversations.LostCallReachesModel`). `Conversations.RegenerationKeepsIff` is the exact condition. A regeneration
  of the newer message finds the older one again (`Conversations.RegenerationFindsMessage`).
- A regeneration drops every result that is newer than its target, also of a message older than it, and so sends
  the model calls without their results (`ConversationRuns.NewResultIsWithheld`); nothing else does
  (`Conversations.ModelSeesOnlyAnsweredCalls`).
- Two turns of one conversation that run at the same time can leave a call behind in the same way
  (`Overlaps.OverlappingTurnsLoseACall`). The step that does it is `Interleaving.StepKeepsOrderIff`.
  `LostCalls.LostIffNeverAnswered` says exactly which unanswered calls nothing, not even a regeneration, can answer
  any more: those with no plain answer between them and a newer message with calls that is answered but was
  never completed, because its turn died, or that is itself lost.
- The search for unanswered calls and the reading of the history are separate queries, so a turn can send calls
  that another one stored between them (`Overlaps.StaleSearchSendsOpenCall`);
  `Interleaving.OrderlyTurnsSendAnsweredIff` is the exact condition.
- A workflow tool that raises after its effect leaves its step as it was, so the next delivery executes it again
  (`Workflow.RaisedStepRunsTwice`). The exact count is `Workflow.ExecutedOnceUnlessRaised`. Two advances that overlap
  execute a step twice without any exception (`WorkflowRace.OverlappingAdvancesRunTwice`): the first time this
  happens it is exactly because the second read the step before the first saved its output
  (`WorkflowRace.ExecutedTwiceIffOverlooked`). An overlapping advance can also make a run that a person has just
  failed wait again (`WorkflowRace.StaleAdvanceReopensRun`); the exact condition is `WorkflowRace.EndedRunReopensIff`.
- The respond view checks the status without a lock. Two answers to one question can end with two workers on the
  task (`AnswerRuns.RacingAnswersShareATask`); at most one holds it exactly as long as no delivery is claimed between
  an answer written over the held task and its holder's next report (`AnswerRace.OneWorkerIffNotOvertaken`). A late
  answer can also reopen a completed task and make a call execute a second time
  (`AnswerRuns.LateAnswerReopensTask`); while one worker at most is active, the exact conditions are
  `AnswerRace.EndedStaysIff` and `AnswerRace.ExecutedOnceIff`.
- With an approved row the chat orchestrator executes without asking the organization rules again, while the
  task engine and the workflow engine still refuse under a deny rule: on an approved call they agree exactly when
  no rule denies it (`Chat.EnginesAgreeOnApprovedIff`, `Chat.OnlyApprovalOutranksDenial`); before there is a row
  the gates agree (`Gates.RefusedIffRuleDenies`, `Gates.GatesAgree`).
- Renaming through the bundle placeholder is faithful exactly for texts that do not contain the placeholder
  (`Bundle.RenamingFaithfulIff`).
- A site whose robots.txt answers with an error, or with an empty file, is closed to the crawler; only a missing file
  opens it (`CrawlLaws.OnlyMissingRulesPermitAll`).
- Dependency installation refuses diamonds as well as cycles (`Marketplace.InstallsIffReachedOnce`).
- In a consensus session a member's background work that waits for input counts as finished, so a session can
  be decided or deadlocked before that member votes (`Consensus.ClosesBeforeInput`). Counting means that all
  ended exactly when none waits for input (`Consensus.AllEndedIffNoneWaits`); which late votes a result survives
  is `Consensus.LateVoteKeepsResultIff`.

## Model

| member | source | states |
|---|---|---|
| Gates.UnattendedIffGatesExecute | services/app/core/permissions.py:55-85 | a gate lets an unapproved call run exactly when the rules allow it and either profile and floor both say auto for a safe or sensitive risk, or no floor covers the risk and a standing policy matches; the workflow gate only in the first case |
| Gates.GatesAgree | services/app/ai/chat_orchestrator.py:591-635 | chat and background gates agree on every input without an approval row; the workflow gate is never laxer and is equal without a standing policy |
| Gates.RefusedIffRuleDenies | services/app/ai/task_engine.py:238-245 | every gate refuses exactly under a deny rule, approved or not, and an approved call is not asked about again |
| Gates.InsertFloor | services/app/core/permissions.py:55-85 | one more floor row sets the entry of its own tier exactly when enforced and leaves every other tier alone |
| Gates.AddingFloorNeverLoosens | services/app/core/permissions.py:55-85 | no gate's verdict gets laxer when a floor is added |
| Gates.ResolveOrgAction | services/app/core/interface.py:335-350 | the effect of the first applying rule in priority order, allow when none applies |
| Gates.ResolveApprovalPolicy | services/app/core/interface.py:416-460 | the first policy that does not pass settles it: it matches, or its comparison raises on not-a-number; a limit passes on a missing, non-numeric or larger argument and matches minus infinity |
| Approvals.LatestApprovalOf | services/app/ai/chat_orchestrator.py:562-566 | with one row per call the looked-up row is the call's only row |
| Gates.AppliesIffConditionsHold | services/app/core/interface.py:335-350 | a rule applies exactly when it is enabled, names the resource type and the action or everything, and its conditions are among the context's fields, absent ones read as null |
| Gates.RulingIff | services/app/core/interface.py:416-460 | a policy matches exactly when it is enabled, for this coworker or all, and a blanket one or its limit sees an amount at or below it; it raises exactly when its limit sees not-a-number |
| Chat.ProtocolIsSafe | services/app/ai/chat_orchestrator.py:473-675 | over every interleaving of walkers, crashes and decisions: results answer a prefix of the calls in order, one approval row per call, a pending one only for the first unresolved call, one walker in a transaction, every execution justified when it ran |
| Chat.ExecutedOnceUnlessLost | services/app/ai/chat_orchestrator.py:555-580 | conservation: executions of a call equal the lost ones plus one if its output is stored or about to be, so it runs at most once exactly when none was lost, or one was and no output survives |
| Chat.AtMostOnceWithoutCrash | services/app/ai/chat_orchestrator.py:544-558 | when no transaction dies a call executes at most once |
| Chat.CrashAfterExecutionRunsTwice | services/app/ai/chat_orchestrator.py:664-675 | a concrete run in which a crash makes a call execute twice |
| Chat.DeniedNeverExecutesLater | services/app/ai/chat_orchestrator.py:564-580 | once a call is turned down it stays so and never executes again |
| Chat.ResolveIsAtomic | services/app/ai/chat_orchestrator.py:555-675 | the lock, look, execute, commit steps taken alone have exactly the effect of the transaction seen from outside |
| Chat.WalkResolvesWhatItCan | services/app/ai/chat_orchestrator.py:473-528 | a walk ends with every call resolved, or in front of a call that a person has yet to decide |
| Chat.OnlyApprovalOutranksDenial | services/app/ai/chat_orchestrator.py:564-600 | under a deny rule a call executes exactly when it has no result and its row is approved |
| Chat.EnginesAgreeOnApprovedIff | services/app/ai/task_engine.py:238-276 | on an approved, unanswered call of an attached tool chat and the task engine do the same exactly when no rule denies it |
| Chat.UnresolvedIffShort | services/app/ai/chat_orchestrator.py:466-470 | the unresolved test is true exactly when fewer results than calls are stored |
| Chat.SecondWalkChangesNothing | services/app/ai/chat_orchestrator.py:483-489 | a second walk with no decision in between changes nothing, whatever tools, rules and profiles it finds |
| Chat.AssistantTurn.StoreToolResult | services/app/ai/chat_orchestrator.py:731-744 | appends one result row and touches nothing else |
| Chat.AssistantTurn.ResolveOneToolCall | services/app/ai/chat_orchestrator.py:531-675 | one locked resolution is the atomic step of the protocol, with its outcome |
| Chat.AssistantTurn.AdvanceMessageToolCalls | services/app/ai/chat_orchestrator.py:473-528 | the loop over the calls is the walk |
| ChatLaws.WalkIsLawful | services/app/ai/chat_orchestrator.py:473-675 | for each call a walk resolves, its result is what this call's own decision, attachment, rules and output make it; the history gains exactly the calls that ran, each approved or let through by the gate of its own policies; it asks for approval exactly of the first call that needs one and has none |
| ChatLaws.LawDeterminesWalk | services/app/ai/chat_orchestrator.py:473-675 | only one table state satisfies that law, the walk's |
| ChatLaws.WalkIsARun | services/app/ai/chat_orchestrator.py:473-528 | a walk is its transactions in the protocol, the policies of call j looked up for call j and its own output executed |
| ChatLaws.ResultsHaveCauses | services/app/ai/chat_orchestrator.py:531-675 | over every interleaving: a stored output is what the call's tool returned, a denial was a person's decision of its row or a rule read while nobody had been asked, and only a tool not attached is stored as such |
| ChatLaws.ExecutionsHaveCauses | services/app/ai/chat_orchestrator.py:562-635 | over every interleaving: an execution by approval follows a person's approval of that call's pending row, any other a reading of policies under which its gate lets it run |
| ChatLaws.TurnedDownNeverExecutes | services/app/core/chat_views.py:429-455 | from the event on at which a person denies a call's pending row, the call never executes again |
| ChatLaws.DecisionIsRecorded | services/app/core/interface.py:538-558 | a decision changes exactly the pending row it is about, to approved or denied as the person says |
| ChatTurns.TurnGrows | services/app/ai/chat_orchestrator.py:292-420 | a turn asks the model at most once an iteration, with a result for every call it shows exactly when no result is hidden from it, rewrites no settled and no hidden message, and ends in front of an undecided call or with every visible call answered |
| ChatTurns.AllAnsweredIff | services/app/ai/chat_orchestrator.py:747-780 | a history shows a result for each of its calls exactly when its messages are answered and none of their results is newer than the regenerated target |
| Conversations.ModelSeesOnlyAnsweredCalls | services/app/ai/chat_orchestrator.py:292-330 | over every conversation of sends, resumptions, decisions and regenerations, one turn after the other, none of which has left a call behind so far: whatever the model is sent shows a result for each call, except exactly when a regeneration's target lies between a message and its result |
| Conversations.RegenerationKeepsIff | services/app/ai/chat_orchestrator.py:183-206 | a regeneration sends complete histories exactly when no result of an earlier message is newer than the target; it keeps open calls confined to the newest message exactly when no later message is open, or the model's first response names no calls, or no iteration is allowed |
| ConversationRuns.RegenerationLosesACall | services/app/ai/chat_orchestrator.py:448-463 | a concrete conversation, from its first message on, in which a regeneration leaves a waiting call behind a newer message |
| Conversations.LostCallReachesModel | services/app/ai/chat_orchestrator.py:448-463 | after such a regeneration the next turn sends the model an unanswered call, exactly when the regenerating turn did not end in front of a decision |
| Conversations.RegenerationFindsMessage | services/app/ai/chat_orchestrator.py:195-206 | a regeneration walks the newest message with calls before its target if that is unanswered, and leaves it as the walk does |
| ConversationRuns.NewResultIsWithheld | services/app/ai/chat_orchestrator.py:195-199 | a concrete conversation in which no call is left behind and a regeneration sends the model a call without its result |
| Conversations.ResumeWhileWaiting | services/app/ai/chat_orchestrator.py:294-306 | while a decision is outstanding a resumed turn changes nothing and never reaches the model |
| ChatTurns.RepetitionStopsTurn | services/app/ai/chat_orchestrator.py:701-728 | a turn stops for a repeated failure exactly when the same tool with the same arguments failed twice among the messages it finished |
| ChatTurns.RepeatedFailureDetail | services/app/ai/chat_orchestrator.py:701-728 | the counting loop, whose verdict TurnLaws.RepetitionStopsTurnIff characterizes |
| TurnLaws.RepetitionStopsTurnIff | services/app/ai/chat_orchestrator.py:701-728 | a turn stops for a repeated failure exactly when two different calls of the messages it finished have equal texts of tool and arguments and the last stored result of each reports an error or a tool not attached |
| TurnLaws.SameRequestStopsTurnIff | services/app/ai/chat_orchestrator.py:721-728 | the same with equal names and equal canonical arguments, for canonical texts of which none ends in a colon and another one, as JSON objects do not |
| TurnLaws.FinishedAreNewlyAnswered | services/app/ai/chat_orchestrator.py:294-306 | the messages this is about are those whose calls the turn left answered |
| TurnLaws.TurnIsLawful | services/app/ai/chat_orchestrator.py:292-431 | the first iteration walks the unanswered message the turn sees, if there is one; each other sends the model exactly the messages there are and adds the answer, or the message with its calls walked under that iteration's policies and outputs; nothing else changes, and each ending comes exactly so |
| ChatTurns.Conversation.ContinueTurn | services/app/ai/chat_orchestrator.py:292-431 | the loop of a turn leaves the rows, the ending and the requests the state machine gives |
| Interleaving.MessagesStaySafe | services/app/ai/chat_orchestrator.py:292-431 | under every interleaving of turns, regenerations, deaths and decisions each message keeps its results in call order and is completed only when answered |
| Interleaving.StepKeepsOrderIff | services/app/ai/chat_orchestrator.py:448-463 | the one step after which an open call is no longer in the newest message: a turn stores new calls while an older call is open |
| Interleaving.OrderlyTurnsSendAnsweredIff | services/app/ai/chat_orchestrator.py:294-330 | without such a step, everything sent to the model is complete exactly when, whenever a turn reads the history, the messages stored since its search are answered and no result is hidden from it |
| Interleaving.OneAtATimeIsOrderly | services/app/ai/chat_orchestrator.py:292-431 | turns that never overlap, and regenerate only where they hide nothing open, have no such step and send complete histories but for hidden results |
| TurnLaws.LatestTurnIsShown | services/app/ai/chat_orchestrator.py:183-206 | after any conversation that has left no call behind, regenerating anything the latest turn added sends the model a result for every call |
| TurnRuns.TurnIsARun | services/app/ai/chat_orchestrator.py:292-431 | the steps of a turn that nothing disturbs lead to the messages and requests of the turn as a whole |
| TurnRuns.ConverseIsARun | services/app/ai/chat_orchestrator.py:183-206 | every conversation whose turns follow one another, regenerations included, is one of the interleaved ones, request by request |
| LostCalls.LostIffNeverAnswered | services/app/ai/chat_orchestrator.py:448-463 | an unanswered message is lost (no turn holds it, and the next message with calls can neither be hidden by regenerating an answer between them nor be completed) exactly when no further turns, regenerations, decisions or responses can ever answer it |
| LostCalls.LostForever | services/app/ai/chat_orchestrator.py:448-463 | a lost call stays unanswered, and every later history that shows its message goes out incomplete |
| Overlaps.OverlappingTurnsLoseACall | services/app/ai/chat_orchestrator.py:292-306 | two concrete interleavings: a waiting call is lost when the turn over the newer message dies before completing it, and only out of sight of ordinary turns when it completes it |
| Overlaps.StaleSearchSendsOpenCall | services/app/ai/chat_orchestrator.py:294-318 | a concrete orderly interleaving in which a turn sends calls stored after its search |
| Transcript.ReloadUndoesStore | services/app/ai/task_engine.py:69-87 | storing and reloading gives a transcript back exactly when each message is in the normal form the engine builds |
| Transcript.AnswerReadsBackAsReply | services/app/core/task_views.py:183-193 | the dictionary appended by the respond view reads back as an ordinary tool reply |
| Transcript.GeneratedIsPlain | services/app/ai/task_engine.py:69-87 | every transcript the engine builds is in that normal form |
| Transcript.OwedIsFirstDue | services/app/ai/task_engine.py:161-183 | the engine's search for an unanswered call finds the first call the grammar says is due |
| Transcript.GeneratedIsWellFormed | services/app/ai/task_engine.py:155-354 | with distinct ids a transcript is the opening followed by blocks of an assistant message and replies to its calls in call order, only the last block incomplete |
| Tasks.ExecutionIsExclusiveAndJustified | services/app/core/interface.py:212-241 | over all deliveries, pauses, decisions and answers: one worker at most, one exactly while in progress, no call id executed twice, every execution justified, its reply stored, held by the worker or of an ended task, one approval row per call |
| Tasks.PausesHaveAReason | services/app/ai/task_engine.py:184-314 | a row waits for approval only for an owed call someone was asked about, for input exactly while the owed call is the pending question, and a final answer is stored when completed and never before an end |
| Tasks.EndedTasksStay | services/app/core/interface.py:212-241 | completed, failed and blocked are never left and the transcript stays |
| Tasks.DecisionIsFinal | services/app/core/interface.py:538-558 | no event changes a decided approval |
| Tasks.DeniedNeverExecutes | services/app/ai/task_engine.py:221-235 | a denied call has not executed and never will |
| Tasks.TranscriptsAreWellFormed | services/app/ai/task_engine.py:155-354 | every stored or held transcript is well formed, and whenever the model is called every call has exactly one reply |
| Tasks.ResumeTransparency | services/app/ai/task_engine.py:155-339 | wherever a run pauses and however often it is stored and reloaded, its transcript is that of one uninterrupted pass with the same model, results and answers |
| Tasks.PassIsMonotone | services/app/ai/task_engine.py:161-354 | a shorter pass is a prefix of a longer one, and all of it once nothing is left to do |
| Tasks.CompletedRunIsWholePass | services/app/ai/task_engine.py:318-354 | a completed run has stored the whole pass |
| Tasks.CompletedRunsAgree | services/app/ai/task_engine.py:155-354 | two completed runs under the same oracle store the same transcript |
| Tasks.ActivationIsARun | services/app/ai/task_engine.py:136-387 | one activation is a sequence of protocol events, so the safety results cover it |
| Tasks.BackgroundTask.ClaimTaskExecution | services/app/core/interface.py:212-221 | claims exactly a pending or approval-waiting row; a duplicate delivery changes nothing |
| Tasks.BackgroundTask.ReportTaskStatus | services/app/core/interface.py:224-241 | stores status and serialized transcript, nothing else |
| Tasks.BackgroundTask.PostAnswer | services/app/core/task_views.py:170-209 | accepted exactly while input is awaited for a named call; appends the reply, clears the question, makes the row pending (check and update as one step) |
| Tasks.BackgroundTask.DecideApprovalRequest | services/app/core/interface.py:538-558 | decides a pending row once, approved or denied as asked; a decided one is refused and unchanged |
| Tasks.BackgroundTask.ExecuteBackgroundTask | services/app/ai/task_engine.py:136-387 | the nested loops leave exactly the rows of the activation |
| Tasks.BackgroundTask.ResolveCalls | services/app/ai/task_engine.py:178-333 | the inner loop over one message's calls |
| Tasks.BackgroundTask.ResolveAttachedCall | services/app/ai/task_engine.py:211-324 | one call of an attached tool: its result, or the pause, block or failure that ends the activation |
| TaskLaws.ExecutionsWereApproved | services/app/core/interface.py:538-558 | over all runs: a call that executed by approval was approved by a person at an earlier event, while its row awaited that decision and it had not run |
| TaskLaws.TurnedDownNeverExecutes | services/app/core/interface.py:538-558 | a call whose pending row a person denies has not executed and never does, whatever happens before and after |
| TaskLaws.DecisionIsRecorded | services/app/core/interface.py:538-558 | a decision changes exactly the pending row it is about, to approved or denied as the person says |
| TaskLaws.DeliveryClaims | services/app/core/interface.py:212-221 | in every run a delivery claims a task that is pending or waits for approval, with the stored transcript or else the opening, and no other |
| TaskLaws.AnswerIsStored | services/app/core/task_views.py:170-209 | an answer becomes the reply of exactly the pending question and makes the task claimable; otherwise nothing changes |
| TaskLaws.ActivationStopsForReason | services/app/ai/task_engine.py:136-387 | after any run, an activation adds only messages the model or a tool brought for the owed call, runs exactly the attached calls among them, each approved or let through by its gate and denied by no rule, and ends in each status exactly for its reason, the transcript stored where it pauses or completes |
| TaskLaws.WorkersStoreEachIteration | services/app/ai/task_engine.py:326-354 | in every run a worker holds what is stored, and besides only replies of the iteration it is in, so no more can be lost with it |
| AnswerRace.ViewReadsQuestion | services/app/core/task_views.py:170-182 | a view goes on exactly from a task that waits for input with a named question, with the transcript and the question it read |
| AnswerRace.WriteIsAnswerIff | services/app/core/task_views.py:170-209 | a view's update has the effect of the one-step answer exactly when it finds the row as the view read it, or the row awaits no answer and already is what is written |
| AnswerRace.FreshAnswersAreSafe | services/app/core/task_views.py:170-209 | a run in which every update finds the row as read is a run of the one-step model, so all of its invariants hold |
| AnswerRace.OneWorkerIffNotOvertaken | services/app/core/task_views.py:196-203 | over every run: at most one worker throughout exactly when no delivery is claimed between an answer written over a held task and the next report |
| AnswerRace.EndedStaysIff | services/app/core/task_views.py:196-203 | in a run of one worker, ended tasks keep status, transcript and history exactly when no answer is written over one |
| AnswerRace.ExecutedOnceIff | services/app/core/task_views.py:183-203 | in a run of one worker, no call executes twice exactly when none executes again after an answer was written, with nobody at work, from a transcript without its reply |
| AnswerRuns.RacingAnswersShareATask | services/app/core/task_views.py:170-209 | from any opening, two answers to the engine's first question end with two workers on the task |
| AnswerRuns.LateAnswerReopensTask | services/app/core/task_views.py:170-209 | from any opening, a late answer makes a completed task pending again and its executed call executes a second time |
| Workflow.ValidateWorkflowDefinition | services/app/core/v2_services.py:156-178 | accepts exactly the non-empty definitions whose every step is accepted, unchanged, and otherwise names a fault of the first step that is not |
| Workflow.RouteMeetsEachStepOnce | services/app/core/v2_engine.py:155-192 | the pure interpreter ends for every validated definition, in front of a condition that cannot be evaluated at the latest, and meets no step twice |
| Workflow.EngineRefinesRoute | services/app/core/v2_engine.py:150-299 | in every run the completed steps are a prefix of the interpreter's route, all of it when completed, each tool step executed and each action backed by its own completed task |
| WorkflowLaws.RouteIsLawful | services/app/core/v2_engine.py:155-192 | after a condition the route goes on at its true or false target as it evaluates, after any other step at the next one, each time with the first step from there on not met yet; it ends exactly where there is none, or at a condition that cannot be evaluated |
| WorkflowLaws.LawDeterminesRoute | services/app/core/v2_engine.py:155-192 | only the route satisfies that law |
| WorkflowLaws.CompletedIsLawful | services/app/core/v2_engine.py:150-299 | in every run the completed steps satisfy it, and a completed run has left no step to come next |
| WorkflowLaws.CompletedHaveReasons | services/app/core/v2_views.py:499-518 | in every run a completed checkpoint was passed by a person, and a completed tool step's attached tool returned without an error |
| WorkflowLaws.ExecutionsHaveReasons | services/app/core/chat_views.py:429-455 | an execution by approval follows a person's approval of that step's pending row |
| WorkflowLaws.RefusalIsFinal | services/app/core/chat_views.py:429-455 | once a person turns down a tool step or a checkpoint the run has failed, and nothing executes or completes any more |
| WorkflowLaws.PassedCheckpointCompletes | services/app/core/v2_views.py:499-518 | a person's approval completes the waiting checkpoint and the run goes on after it |
| WorkflowLaws.ApprovedToolExecutes | services/app/core/v2_engine.py:242-299 | after a person's approval the next advance executes the tool once; the step completes, or with an error the run fails |
| WorkflowLaws.TaskDecidesAction | services/app/core/v2_engine.py:207-225 | an action step completes, fails or waits as its task has completed, has failed or been blocked, or has not ended |
| WorkflowLaws.PollsIffTaskRuns | services/app/core/v2_engine.py:207-240 | an advance asks to be called again exactly when it leaves the run waiting for a task that has not ended |
| WorkflowLaws.FailedHasReason | services/app/core/v2_engine.py:150-299 | in every run a failure comes from a person's refusal, a deny rule, a tool's error or a failed or blocked task |
| WorkflowLaws.AdvanceGoesAsFarAsItCan | services/app/core/v2_engine.py:150-299 | an advance that returns leaves nothing to do for another, and one that raises stands at what raises |
| Workflow.MovesAreBounded | services/app/core/v2_engine.py:155-192 | the index never passes the number of steps n and, with c conditions, moves at most (c+1)(n+1)-1 times, self-loops and backward jumps included |
| Workflow.TickProgress | services/app/core/v2_engine.py:155-192 | each recursive call lowers the pair of unfinished steps and steps left |
| Workflow.RunSafety | services/app/core/v2_engine.py:150-299 | one active step at most and it is the current one, the run awaits approval exactly when that step does, pending rows belong to it, each step starts at most one task or executes, asks for at most one approval, and executes only approved or let through by its gate |
| Workflow.ExecutedOnceUnlessRaised | services/app/core/v2_engine.py:287-299 | conservation: a step's executions are those that raised plus one if its output is stored, so it executed at most once exactly when it never raised, or raised once and has no output |
| Workflow.AtMostOnceWithoutRaise | services/app/core/v2_engine.py:287-299 | when no tool raises and advances do not overlap, every step executes at most once |
| Workflow.RaisedStepRunsTwice | services/app/core/v2_engine.py:287-299 | a concrete run that executes a raising step twice and completes |
| WorkflowRace.FreshAdvancesAreSafe | services/app/core/v2_engine.py:150-299 | advances that overlap but act only on rows that still are as they read them keep the run's promises: route, safety and the count of executions |
| WorkflowRace.ExecutedTwiceIffOverlooked | services/app/core/v2_engine.py:150-299 | after such acts, one whose tool does not raise executes its step a second time exactly when the step's output was saved since it was read |
| WorkflowRace.OverlappingAdvancesRunTwice | services/app/core/v2_engine.py:287-299 | a concrete run in which two overlapping deliveries execute one step twice without an exception |
| WorkflowRace.StaleActWritesInPlace | services/app/core/v2_engine.py:150-299 | whatever happened since an advance read its rows, it writes only the step it read, moves the index only past that step, and writes the run's status only to complete it, to wait with that step, or to fail an active run |
| WorkflowRace.EndedRunReopensIff | services/app/core/v2_engine.py:39-61 | a failed or cancelled run is changed by an advance that read it before exactly when that advance asks a person, or had read the run at its end |
| WorkflowRace.StaleAdvanceReopensRun | services/app/core/v2_engine.py:194-205 | a concrete run in which a checkpoint that a person turned down waits again |
| Workflow.TerminalRunsStay | services/app/core/v2_engine.py:39-61 | no event changes a completed, failed or cancelled run |
| Workflow.SecondAdvanceChangesNothing | services/app/core/v2_engine.py:150-299 | after an advance that returned, a second one with no event between changes nothing even if rules and tools have changed; after one that raised, it raises again, no row has changed, and a tool has executed once more |
| Workflow.WorkflowRun.StartWorkflowRun | services/app/core/v2_services.py:211-231 | a fresh run with one pending step per definition step |
| Workflow.WorkflowRun.FailWorkflowRun | services/app/core/v2_engine.py:39-61 | fails a run and says whether it was running |
| Workflow.WorkflowRun.AdvanceWorkflowRun | services/app/core/v2_engine.py:150-299 | one recursive advance leaves exactly the state machine's state and outcome, exceptions of tools and of conditions included |
| Workflow.WorkflowRun.RunActionStep | services/app/core/v2_engine.py:207-240 | a coworker action step |
| Workflow.WorkflowRun.RunToolStep | services/app/core/v2_engine.py:242-299 | a tool step with its gate |
| Workflow.WorkflowRun.ExecuteWorkflowTool | services/app/core/v2_engine.py:287-299 | the execution of a step's tool: output, error output or a raised exception that leaves every row alone |
| Workflow.WorkflowRun.DecideApprovalRequest | services/app/core/chat_views.py:429-455 | a step's approval decision; a decided row is refused |
| Workflow.WorkflowRun.DecideCheckpoint | services/app/core/v2_views.py:499-518 | a checkpoint decision; found exactly when the step is a waiting checkpoint, else nothing changes |
| Teams.CreateAgentTeam | services/app/core/v2_services.py:59-105 | accepts exactly the valid teams of active, distinct coworkers with supported roles and, when manager-led, one manager; the error names what is wrong |
| Teams.BlueprintSize | services/app/core/v2_engine.py:78-147 | n tasks for sequential and parallel teams, n + 1 for a manager-led one |
| Teams.NextTasksAreNextStage | services/app/core/v2_engine.py:91-133 | what an advance creates is the next whole stage of the blueprint, nothing only at its end |
| Teams.RunFollowsBlueprint | services/app/core/v2_engine.py:78-147 | in every run the created tasks are a prefix of the blueprint, stage after stage, all of it and all ended when completed |
| Teams.DelegatesCount | services/app/core/v2_engine.py:112-119 | everyone but the manager gets exactly one delegate task, in member order |
| Teams.ManagerWaits | services/app/core/v2_engine.py:106-126 | no delegate starts before the plan ends and no synthesis before every delegate ends |
| Teams.FailureIsFinal | services/app/core/v2_engine.py:85-90 | an advance that sees a failed task fails the run, which then creates nothing more |
| TeamLaws.ManagersAreCounted | services/app/core/v2_services.py:75-78 | the managers counted are the members with that role |
| TeamLaws.TasksAreRight | services/app/core/v2_engine.py:92-128 | in every run each task has the member and the title its place demands, the manager being the first one, delegates everyone else in member order, and objectives cut to their lengths |
| TeamLaws.AdvanceIsLawful | services/app/core/v2_engine.py:78-147 | a failed task fails the run, a task under way makes it wait, and otherwise as many pending tasks are created as the pattern demands, or the run completes when it has them all |
| TeamLaws.CompletedRunEndedWell | services/app/core/v2_engine.py:85-91 | a run is complete only with all of its tasks completed or blocked |
| TeamLaws.FailedTaskFailsRun | services/app/core/v2_engine.py:85-90 | over all continuations: once a task has failed the next advance fails the run for good, without another task |
| TeamLaws.FailedRunHasFailedTask | services/app/core/v2_engine.py:85-90 | a run fails only over a failed task |
| Teams.AgentTeamRun.AdvanceAgentTeamRun | services/app/core/v2_engine.py:78-147 | one advance is the state machine's step, and the manager lookup never fails |
| Crawler.DomainMatchesBelow | services/app/ai/web_crawler.py:49-52 | blocking is closed under subdomains |
| Crawler.TurnInv | services/app/ai/web_crawler.py:233-290 | one turn keeps every promise of the crawl |
| Crawler.CrawlInv | services/app/ai/web_crawler.py:218-290 | after any number of turns: no normalized URL twice, sorted queue depths that differ by at most one, nondecreasing record depths, refused exactly what the rules refuse, fetched exactly what they allow and the start host delivers, each parent the page that links there, nothing found forgotten, one table entry per original page |
| Crawler.DepthIsShortestChain | services/app/ai/web_crawler.py:233-277 | a record's depth is the length of a shortest chain of expanded pages from a seed |
| Crawler.DrainedCrawlIsClosed | services/app/ai/web_crawler.py:270-277 | with an empty queue the visited URLs are exactly the seeds and expanded pages' links on the start host |
| Crawler.QueueLinks | services/app/ai/web_crawler.py:272-277 | the loop over a page's links |
| Crawler.VisitPage | services/app/ai/web_crawler.py:239-290 | refusal, fetch, redirect check, duplicate check and expansion of one URL |
| Crawler.IsBlocked | services/app/ai/web_crawler.py:55-57 | true exactly when some blocked domain covers the host |
| Crawler.WorkQueue | services/app/ai/web_crawler.py:229-290 | the loop ends, with at most the allowed number of records, exactly when the queue is empty, the pages are enough or the time is up |
| Crawler.UniquePages | services/app/ai/web_crawler.py:256-298 | the unique count is the number of records that repeat nothing and the number of distinct checksums |
| Crawler.CrawlWebsite | services/app/ai/web_crawler.py:194-298 | clamped limits; refused exactly for a blocked URL, or when the site is not open to all and has no rules or rules that refuse the start; else the report of the finished crawl |
| CrawlLaws.MatchesIffCovers | services/app/ai/web_crawler.py:49-52 | a domain rule matches exactly the domain that follows its leading dots, and the names below it |
| CrawlLaws.OnlyMissingRulesPermitAll | services/app/ai/web_crawler.py:28-36 | a site without robots.txt is open, one with rules as they say, and one whose file is empty or cannot be had is closed |
| CrawlLaws.FetchedIffPermitted | services/app/ai/web_crawler.py:239-255 | in every crawl a URL is fetched exactly when no blocked domain covers its host and the site has no rules or they permit it; pages come from the start host |
| CrawlLaws.DuplicatesNameFirst | services/app/ai/web_crawler.py:258-268 | in every crawl a page is a duplicate exactly when its text came before, and names the first page of that text |
| CrawlLaws.LinksAreFollowed | services/app/ai/web_crawler.py:270-277 | in every crawl each same-host link of a page that was the first of its text and above the depth limit is visited, or waits one level below |
| CrawlLaws.VisitsAreFound | services/app/ai/web_crawler.py:233-277 | in every crawl each visited URL is a seed, or such a page one level above links to it |
| Marketplace.InstallsIffReachedOnce | services/app/core/v3_services.py:96-119 | on any graph, cyclic or not, the walk ends and succeeds exactly when every dependency resolves and no version is reached twice, the root included |
| Marketplace.ResolvesToNewest | services/app/core/v3_services.py:108-115 | a dependency resolves to the newest approved version of its listing, of the version asked for if one is, and to none only when none fits |
| Marketplace.ErrorTellsWhy | services/app/core/v3_services.py:96-119 | the walk reports unavailability only for a dependency below the root that resolves to nothing, and a cycle only for a version met again |
| Marketplace.InstallCorrect | services/app/core/v3_services.py:96-119 | the same for every subtree and every visited set, with the versions it adds to the set |
| Marketplace.InstalledInOrder | services/app/core/v3_services.py:105-119 | the returned list holds each version reached below the root once, after all of its own dependencies |
| Marketplace.Installer.InstallDependencies | services/app/core/v3_services.py:96-119 | the recursion with its shared visited set computes the specified result |
| Bundle.RenamingThroughMark | services/app/core/v3_services.py:142-148 | replacing through a placeholder the text does not contain is replacing directly |
| Bundle.RenamingFaithfulIff | services/app/core/v3_services.py:142-148 | exactly the texts without the placeholder are renamed faithfully |
| Bundle.BundleRoundTrip | services/app/core/v3_services.py:201-207 | export then import renames the coworker in every workflow that mentions it and nothing else, exactly when none of these contains the placeholder |
| Bundle.SameIdGivesDefinitionBack | services/app/core/v3_services.py:201-207 | under the same id a definition comes back exactly when it does not contain the placeholder |
| Bundle.ExportWorkflows | services/app/core/v3_services.py:140-148 | the export loop |
| Bundle.ImportWorkflows | services/app/core/v3_services.py:201-208 | the import loop |
| Consensus.MajorityWinsIff | services/app/core/v4_services.py:348-359 | by majority an option wins exactly when more than half of the members voted and every other voted option has fewer votes |
| Consensus.ConfidenceWinsIff | services/app/core/v4_services.py:348-359 | by confidence it wins exactly when more than half voted and every other voted option's confidences sum to less |
| Consensus.FinishedCountIsSettled | services/app/core/v4_services.py:341-344 | what is counted are the tasks that have ended or wait for input |
| Consensus.ClampIsNearest | services/app/core/v4_services.py:310-315 | the confidence taken is the given one moved into 0 to 1 as little as possible, and 1 without a number |
| Consensus.WinnerIsUnique | services/app/core/v4_services.py:353-361 | at most one option wins |
| Consensus.OrderDoesNotMatter | services/app/core/v4_services.py:348-361 | the outcome depends on the votes cast, not on their order |
| Consensus.FurtherVoteKeepsWinner | services/app/core/v4_services.py:348-361 | a further vote for the leader keeps the decision |
| Consensus.UnanimousIsMajority | services/app/core/v4_services.py:353-361 | a unanimous decision is also the majority decision |
| Consensus.FinishedCountMeansAll | services/app/core/v4_services.py:341-347 | with one task per member, counting finished tasks asks whether all count as finished |
| Consensus.AllEndedIffNoneWaits | services/app/core/v4_services.py:340-347 | when all count as finished, all have ended exactly when none waits for input |
| Consensus.ClosesBeforeInput | services/app/core/v4_services.py:340-364 | two concrete sessions that deadlock and decide while a member waits for input |
| Consensus.DeadlocksBeforeInput | services/app/core/v4_services.py:319-364 | a session of two is deadlocked by its first recorded vote while the other member waits for input |
| Consensus.DecidesBeforeInput | services/app/core/v4_services.py:319-364 | a session of three is decided by its second recorded vote while the third member waits for input |
| Consensus.LateVoteKeepsResultIff | services/app/core/v4_services.py:319-364 | a decided option survives a late vote exactly when the method is not unanimity and the vote is for it or leaves its own option behind it |
| Consensus.ParseVote | services/app/core/v4_services.py:295-316 | the option named in the answer, else the only one mentioned; the given confidence clamped to 0 and 1; no vote exactly when neither exists |
| Consensus.ConsensusSession.CountScores | services/app/core/v4_services.py:348-352 | the score dictionary holds each voted option's score |
| Consensus.ConsensusSession.Best | services/app/core/v4_services.py:357-359 | the only best-scored option, or none exactly when the best score is shared |
| Consensus.ConsensusSession.Winner | services/app/core/v4_services.py:353-360 | the winning option, one of the session's, or none exactly when none wins |
| Consensus.ConsensusSession.FinalizeConsensus | services/app/core/v4_services.py:340-364 | nothing before enough tasks are finished; then decided with the winner or deadlocked exactly when there is none |
| Consensus.ConsensusSession.RecordVote | services/app/core/v4_services.py:319-337 | one vote per coworker: only the coworker's own earlier vote is replaced, else one is added; then the tally; a malformed answer changes nothing |
| LogFrames.SizeIsBigEndian | services/app/ai/sandbox.py:73-76 | a header's last four bytes are the payload size, the most significant first |
| LogFrames.DemultiplexUndoesFraming | services/app/ai/sandbox.py:69-87 | decoding undoes framing: each stream is its frames' payloads in order |
| LogFrames.CutFrameIsDropped | services/app/ai/sandbox.py:69-87 | a frame cut short is dropped and everything before it kept |
| LogFrames.PrefixYieldsPrefix | services/app/ai/sandbox.py:69-87 | of any bytes, a prefix yields prefixes of both streams |
| LogFrames.ReadFrames | services/app/ai/sandbox.py:69-80 | the loop over the frames |
| LogFrames.DecodeLogs | services/app/ai/sandbox.py:69-87 | both streams cut to the limit, stdout first, flagged exactly when something was cut |

## Left out

- HTTP views, serializers, permissions, notifications, audit rows, plan limits, memory writes and citations: they do not influence the modelled control flow; bookkeeping is taken not to raise.
- Model output, tool executors, fetches and the clock are parameters; HTML, JSON, regular expressions, IDNA, robots.txt parsing and hashing are uninterpreted total functions of values.
- Liveness: an approval can lose its wake-up when it is decided before the pause is stored, so only safety is claimed.
- Chat.ProtocolIsSafe: the call ids of one message are taken to be distinct, as providers give them; the code does not check it.
- Tasks.TranscriptsAreWellFormed: stated for transcripts with distinct call ids; exclusivity and single execution need no such assumption.
- Tasks.BackgroundTask.PostAnswer: check and update are one step here; `AnswerRace` takes them apart, says exactly when an update has the effect of that step, and what holds when it has not.
- Tasks.ResumeTransparency: the oracle answers per call id, so a tool whose result depends on when it runs is outside it.
- Workflow.AtMostOnceWithoutRaise: one advance is one step here; overlapping advances are in `WorkflowRace`, where an advance reads run and step in one query and acts once before it reads again.
- Workflow.WorkflowRun.AdvanceWorkflowRun: crashes between the saves of one advance are not modelled, and a condition is one value per step, fixed by the run's context: true, false, or a comparison that raises.
- Teams.AgentTeamRun.AdvanceAgentTeamRun: the pattern is fixed during a run, and task descriptions and the run's result text are not modelled.
- Conversations.ModelSeesOnlyAnsweredCalls: one turn is one step here (walkers over one message at once are in `Chat`, turns at once in `Interleaving`); where in the history a result stands is not modelled, only whether it is shown, and retrieved context is not part of what is sent.
- Interleaving.MessagesStaySafe: the iteration limit and the repeated-failure rule appear as a turn that may stop after any message or die at any point.
- Crawler.CrawlInv: URL normalization is taken to be idempotent; rate limiting, caches and sitemap fetching are not modelled, the sitemap's URLs are a parameter.
- Marketplace.Installer.InstallDependencies: what an installation itself creates, and what a refused walk leaves behind before its transaction is rolled back, is not modelled.
- Bundle.BundleRoundTrip: definitions are texts; that parsing and printing JSON gives the same text is not modelled, nor is the validation of the imported definition.
- Gates.ResolveApprovalPolicy: JSON numbers are finite (texts may read as either infinity or not-a-number), and what its exception does to the calling engine is not modelled beyond the crash and failure events those have.
- Consensus.ParseVote: a confidence that is no number at all counts as 1 as in the code, but the decimal not-a-number value, on which the code raises, is not modelled.
- Consensus.FurtherVoteKeepsWinner: for an unchanged number of members.
