# Orchestra: a verified model of the run engine

Orchestra runs a task as a graph: a supervisor plans subtasks, a scheduler sends batches of
ready subtasks to specialists, a reviewer gates every result, two human gates pause the run for
sensitive tool calls and for subtasks that failed, and a writer synthesizes what was accepted.
This project models that engine in Dafny 4.11 and proves what holds over whole runs. Around it
stand models of the pieces the engine leans on: the plan validator, the audited tool executor and
its rate limiter, the crash-resume driver, the approvals table, the trace forest and the LLM
cache.

`dafny verify dfyconfig.toml` checks everything.

## How it is modelled

* `Dicts` has the insertion-ordered dictionaries and the reducer that merges parallel branches.
* `Plans` is the validator: the Kahn loop and the rules are methods with the loops of the source,
  proved against a set of blocked subtasks, against dependency walks and against a list of rules.
* `Tools` and `Agents` hold the approval gate, the bounded tool loop and the reviewer's override.
* `Engine` has the channels of `GraphState`, one function or method per node, and the edges as a
  step function `Next` from one checkpoint to the next. What an LLM, a tool or a human answers is
  the input of the step, and `Events` is what the outside world sees of it.
* `Invariant` and `Steps` state and prove the engine invariant node by node. A subtask is a slot
  (status, attempts, human decision); every step leaves a slot alone or moves it down one order.
* `Runs`, `Planning`, `Termination`, `Schedule` and `Endpoint` prove the theorems about runs that
  start from `initial_state`; `Planning` says which plan a run executes and what it answers.
* `Diversion` and `Waiting` are about what the engine does not promise: they say exactly when an edit
  reopens a decision or keeps a run going forever, and when a question is left open. `Diversion` and
  `OpenQuestions` exhibit the runs, built from the stretches of `Scenarios`.
* `Gates` has what the three gates show a human, `Approvals` the table and the decide endpoint, and
  `Resolutions` the way of a stored decision back to a gate. `Rulings` says what each stored text
  does to what was shown.
* `Driver` adds `run_task` and `resume_task` deliveries, which may overlap and come late, worker kills
  and the checkpointer. `Provenance` proves what its log says about committed checkpoints;
  `Redelivery` when the human asked is the human who decided; `StaleResume` exhibits a schedule in
  which it is not. `OneAnswer` is about gates that a run comes back to.
* `Registry`, `Approvals`, `Spans` and `Cache` are classes and methods that update their state as
  the source does, each tied to a specification function about which the results are proved.

Assumptions: subtask ids are strings and a missing field is the empty string. Signatures, cache
keys and approval ids are injective, so they are modelled by what they are computed from. The
clock of the rate limiter never goes back. Scores are real numbers. The checkpointer commits each
super-step atomically, every checkpoint names its parent, and the latest one is the last committed.
A delivery finds the latest checkpoint, and `resume_task` its row, in one step. A resumed worker
hands its answer to the first gate it comes to; it may also pause there instead, so a worker that
drops the answer on the way is covered.

## Where the code and its documentation differ

* A human can edit the arguments of a sensitive call, but an approval with edits lets neither call
  through: the executor looks the approval up under the original signature, checks the edited
  arguments against it and asks again (`Tools.ApprovalTakesEffectIff`). The edited call needs an
  approval of its own and a specialist that makes it under the edited arguments
  (`Tools.OnlyApprovedCallsRun`). Editing the arguments to an empty dict is ignored.
* An edit can make a decided signature pending again (`Diversion.ReopensIffBatchDiverted` says
  exactly when), and a run whose human edits one call can go on forever although nobody edits
  anything after that (`Diversion.EndlessIffEdited`, `Diversion.OneEditRunsForever`). Decisions are
  final and runs end as long as no batch is diverted, in particular while edits are harmless.
  In such a loop the engine asks about the edited call again and again, but the approvals table
  keeps the first answer: pausing there asks nobody, the row cannot be decided a second time, and a
  worker resumed for the gate passes it again only when the old resume is delivered again, with the
  old answer (`OneAnswer.ClosedGateAsksNobody`, `OneAnswer.PassesNeedDeliveries`).
* The decide endpoint stores `modified_plan` and `modified_arguments`, while the gates read `plan`
  and `arguments`. So an edit made through the endpoint never arrives (`Resolutions.OnlyTheActionArrives`),
  and runs driven through the endpoint need no assumption about edits (`Endpoint.EndpointRunsEnd`).
* `resume_task` hands the resolution of its row to whatever gate the latest checkpoint stands at. A
  redelivered or late resume can therefore answer a gate its human was never shown, and a sensitive
  tool can run that nobody was asked about (`StaleResume.StaleResumeRunsTool`). A comparison of the
  row's id with the gate's own is exactly what is missing (`Redelivery.AnswersItsGateIffMatched`,
  `Redelivery.HumansApproveWhatRuns`).
* A redelivered job is said to resume without repeating finished work. That holds exactly while every
  commit comes from a worker that stands at the latest checkpoint (`Driver.LinearIffAtHead`), for
  instance while deliveries do not overlap. The queue redelivers after 60 seconds whether the first
  delivery is done or not, and then work is done twice (`Driver.OverlapRedoesWork`).
* The endpoint accepts any string as an action and stores it as the row's status. The action
  "pending" leaves a decided row open (`Approvals.DecisionIsFinalIff`).
* `record_interrupt_approvals` says that it never overwrites a pending row; the SQL does overwrite
  its context. For the payloads the gates build this makes no difference
  (`Approvals.OneFaithfulRowPerPayload`).
* A run can reach synthesis with a signature still pending, when the subtask that asked for it
  finished without the tool in a later attempt (`OpenQuestions.QuestionLeftOpen`; `Waiting.LeavesQuestionIff`
  says exactly when). The subtask itself is never dropped: it is accepted or escalated
  (`Waiting.AskersAreNotDropped`).
* A subtask that fails twice does not always reach a human: of two that escalate together the second
  is not asked about if the first is rejected and nothing else is due
  (`OpenQuestions.EscalationLeftUnanswered`, `Waiting.LeavesEscalationIff`).

## Model

| member | source | states |
|---|---|---|
| Dicts.FanInConfluence | orchestra/graph/state.py:26-35 | Merging compatible branch updates in any order, or one of them twice, gives the same map. |
| Plans.Cycles | orchestra/graph/validate.py:16-32 | The loop ends, and the ids it reports are the greatest set in which each member waits for a member or for a subtask that does not exist. |
| Plans.StuckIffCyclic | orchestra/graph/validate.py:16-32 | On plans whose dependencies are known, nothing is reported exactly when no dependency walk returns to its start. |
| Plans.ResolvedIffShortChains | orchestra/graph/validate.py:24-31 | A subtask is resolved within k rounds exactly when no dependency chain that ends in it is longer than k. |
| Plans.AcyclicResolves | orchestra/graph/validate.py:24-32 | On an acyclic plan as many rounds as there are subtasks resolve everything. |
| Plans.ValidatePlan | orchestra/graph/validate.py:35-75 | The errors are exactly the broken rules, each with the subtask it concerns; cycles are judged only when nothing else is wrong. |
| Plans.NoErrorsIffValid | orchestra/graph/validate.py:40-75 | No rule is broken exactly when the plan has 1 to 12 subtasks with unique non-empty ids, real descriptions, known specialists, known other dependencies and no cycle. |
| Tools.OnlyApprovedCallsRun | orchestra/graph/build.py:359-376 | A sensitive call passes the executor only as the very triple that was approved, whatever arguments the approval carries, and does so exactly when that approval carries no other arguments. |
| Tools.ApprovalTakesEffectIff | orchestra/graph/approval_nodes.py:113-127 | An approved sensitive call runs exactly when the decision's edits are absent, empty or repeat what was shown; otherwise it does not run and the edited call is asked about. |
| Tools.ExecutorIff | orchestra/graph/build.py:359-376 | The executor refuses exactly what a human rejected; anything else it passes on as the call itself, with the arguments of an approval entry in place of its own if that entry has any, and a tool that is not sensitive never waits. |
| Agents.RunSpecialist | orchestra/agents/specialists.py:78-101 | The outcome is that of the first turn that does not go on with a tool: the error of a turn that fails, a non-empty final answer, without one and without a tool call the thought or else the default text, or the question of a call that needs a decision; if all five turns go on it is the last observation. The tools that ran are those of the turns before that got through, in order. |
| Agents.OutcomeIff | orchestra/agents/specialists.py:78-101 | Conversely the loop has an outcome exactly when the turns lead to it in this way, for answers, crashes and questions alike. |
| Agents.SpecialistIsGated | orchestra/agents/specialists.py:78-121 | A specialist runs at most five tools, each for its own subtask and, if sensitive, under an approval; it stops for a human only about a sensitive tool of its own. |
| Agents.AsksOnlyForUndecided | orchestra/graph/build.py:335-349 | Without diverting edits a specialist never asks again for a signature that was decided. |
| Agents.Checked | orchestra/agents/reviewer.py:45-52 | After the override the verdict is to accept exactly if the overall score is at least 0.75 and the reviewer said accept or escalate, to escalate exactly if it is less and the reviewer said so, and to retry exactly if the reviewer said so or accepted less; scores and feedback stay. |
| Agents.OverallIsMean | orchestra/agents/reviewer.py:11-12 | The overall score lies between the smallest and the largest score, does not depend on their order and rises by a quarter of any score's rise. |
| Engine.NodeSupervisor | orchestra/graph/build.py:210-228 | The first valid one of two proposed plans is kept, with its own confidence, or no plan at all; validity is that of Plans.ValidPlan. |
| Engine.ApplyPlanDecision | orchestra/graph/approval_nodes.py:75-110 | Approval keeps the plan, a valid modification replaces it by the human's, an invalid one, a takeover or anything else empties it and sets the gate's response; only a takeover marks the task as taken over. |
| Engine.RouteNextSubtasks | orchestra/graph/build.py:250-292 | The loops send the batch of the specification: ready subtasks in plan order, then retries in result order. |
| Engine.JudgeResult | orchestra/graph/build.py:429-471 | Accepted exactly when the specialist did not crash, the overall score is at least 0.75 and the reviewer said accept or escalate; sent back exactly below two attempts and for a crash, a "retry" or an "accept" with a lower score; escalated otherwise. Feedback is missing exactly after a crash that is not retried; id, content and error are kept. |
| Engine.NodeReview | orchestra/graph/build.py:409-483 | Every unreviewed result of the plan gets exactly one judgement, one attempt and its feedback; nothing else changes. |
| Engine.FirstPending | orchestra/graph/build.py:89-96 | The gate finds a pending entry whenever there is one. |
| Engine.FirstUndecided | orchestra/graph/build.py:113-121 | The failure gate finds an escalated subtask without a decision whenever there is one. |
| Invariant.BatchExact | orchestra/graph/build.py:259-284 | A batch holds every due subtask once and nothing else, with all decided approvals, and a retry carries the feedback of its review. |
| Invariant.BatchInOrder | orchestra/graph/build.py:270-284 | New subtasks come first, in the order of the plan, then the retries, in the order of the results. |
| Steps.BranchFacts | orchestra/graph/build.py:310-350 | A branch writes only its own subtask's result, which is its specialist's answer or an error without content, or asks about exactly the sensitive call its signature stands for. |
| Steps.BranchComesFrom | orchestra/graph/build.py:310-405 | A branch reports what its specialist's turns lead to: its answer, its error or its question; without such a specialist it reports that. |
| Steps.BranchesCompatible | orchestra/graph/build.py:337-350 | The updates of one batch never write different values to one key. |
| Dicts.MergedApart | orchestra/graph/state.py:26-35 | Branches may as well be merged among themselves first: a key that was there keeps its place, and the order in which new keys follow depends on the branches alone. |
| Steps.ExecuteConfluent | orchestra/graph/build.py:337-350 | Folding the branches of a super-step in another order gives the same results and approvals under the same keys. |
| Steps.QuestionOrder | orchestra/graph/build.py:89-96 | The order of the branches matters only for the places of new keys, and so for the question asked first only if nothing asked before is pending; then it is the question of the first branch that paused. |
| Steps.ExecuteSlot | orchestra/graph/build.py:310-350 | Execution gives due subtasks an unreviewed result and leaves every other result as it was. |
| Steps.ReviewSlot | orchestra/graph/build.py:423-471 | After a review nothing is unreviewed, each reviewed slot has moved down and every other one is unchanged. |
| Steps.ReviewExact | orchestra/graph/build.py:423-471 | A review changes a result in status and attempts only: accepted exactly for a result that is no crash, scored at least 0.75 with an accept or escalate; sent back exactly below two attempts and for a crash, a retry or a lower accept; escalated otherwise. The feedback is the reviewer's, or tells of the crash, or stays after a crash that is not retried. |
| Steps.ReviewLeaves | orchestra/graph/build.py:423-471 | Whatever is not due for review keeps its result, attempts and feedback. |
| Steps.FirstPendingIsFirst | orchestra/graph/build.py:96 | The action gate asks about the pending entry that was inserted first. |
| Steps.FirstUndecidedIsFirst | orchestra/graph/build.py:113-119 | The failure gate asks about the first undecided escalation in result order. |
| Steps.ActionDecisionAt | orchestra/graph/build.py:87-106 | Each pass through the action gate decides one pending entry and changes no other. |
| Steps.FailureDecisionAt | orchestra/graph/build.py:108-142 | Approve accepts the result as it stands, retry sends it back, anything else leaves it escalated; the answer is recorded and nothing else changes. |
| Steps.StepKeepsInv | orchestra/graph/build.py:144-181 | Every super-step keeps the engine invariant, moves slots only down and touches no accepted result, whatever is answered. |
| Runs.SlotsDescend | orchestra/graph/build.py:112-142 | Over a run a subtask's status, attempts and decision only move down one fixed order. |
| Runs.AcceptedIsFinal | orchestra/graph/build.py:271-278 | An accepted result never changes and its subtask is never sent again. |
| Runs.SentSafely | orchestra/graph/build.py:259-306 | Whenever a subtask is sent its plan is valid, its specialist exists, all its dependencies are accepted and no other branch runs it; it is handed exactly the decided approvals, and exactly a retry carries feedback, that of its last review. |
| Runs.AttemptsBounded | orchestra/graph/build.py:429-471 | The attempts counter equals the number of reviewed executions and is at most 2, or at most 3 after a human's retry. |
| Runs.FinalPartition | orchestra/graph/build.py:250-292 | At synthesis every subtask is accepted, escalated or without result, and it has no result exactly when a dependency chain leads to it from an escalated one. |
| Runs.NoEscalationMeansAllAccepted | orchestra/graph/build.py:286-292 | A run without escalations reaches synthesis with every subtask accepted. |
| Runs.BriefedWithAccepted | orchestra/graph/build.py:494-500 | If anything was accepted, the contents the writer is briefed with are exactly the accepted ones. |
| Runs.BriefedWithTheRest | orchestra/graph/build.py:494-500 | If nothing was accepted, they are exactly the non-empty other ones. |
| Runs.BriefedInOrder | orchestra/graph/build.py:494-500 | Each subtask is in the briefing once, in the order of the results. |
| Runs.WarnedOfTheRest | orchestra/graph/build.py:495-508 | The writer is also told about every result that was not accepted, with its status and error, and about no other. |
| Runs.BriefedOnce | orchestra/graph/build.py:486-513 | A run briefs its writer once, as its last step: every accepted content is in the briefing, every other result in the warnings, and nothing that is not a result of the run. |
| Runs.PlanGateIsFinal | orchestra/graph/build.py:230-242 | A rejected, taken-over or invalidly modified plan executes nothing and ends with the response of the gate. |
| Planning.ProposalIsKept | orchestra/graph/build.py:208-228 | After the supervisor a plan and its confidence are those of one and the same proposal, the first if it is valid, else the second; there is a plan exactly if one is valid. |
| Planning.UnaskedPlanRuns | orchestra/graph/build.py:232-242 | With human approval off, or at a confidence of 0.6 or more, nobody is asked about the plan and the kept proposal is the plan to the end. |
| Planning.AskedPlanRuns | orchestra/graph/approval_nodes.py:75-110 | Otherwise a human is asked, and the answer fixes the plan of the whole run: the kept proposal, the human's valid modification, or none; the task is marked as taken over exactly after a takeover. |
| Planning.ModifiedPlanRuns | orchestra/graph/approval_nodes.py:87-97 | After a modification to a valid plan every subtask that is ever sent belongs to the human's plan. |
| Planning.LowConfidencePlansAreApproved | orchestra/graph/build.py:232-242 | Whatever runs belongs to a kept proposal; with human approval on and that proposal below 0.6 confidence, it runs only after a human was asked and did not stop it. |
| Planning.FinalAnswer | orchestra/graph/build.py:486-530 | A run that ends answers what the plan gate stopped it with, or else what the writer wrote. |
| Runs.GatesInOrder | orchestra/graph/build.py:72-85 | Nobody is asked about a failed subtask while a sensitive action is pending, no gate is entered with nothing to ask, and a review passes the gates only when they have nothing to ask. |
| Runs.ExecutedPlansAreValid | orchestra/graph/build.py:256-257 | Only plans that pass the validator are executed. |
| Termination.StepKeepsDecisions | orchestra/graph/build.py:295-306 | Unless a subtask of the batch holds an approval that was edited into a decided call, every step keeps every decided entry as it was decided, whatever is answered. |
| Termination.DecisionsAreFinal | orchestra/graph/build.py:295-306 | While no batch is diverted in that way, a decided signature keeps its decision to the end of the run. |
| Termination.RunsOnlyApproved | orchestra/graph/build.py:352-378 | In every reachable state a sensitive tool runs only under an approval that the state holds for exactly that call. |
| Termination.RejectedNeverRuns | orchestra/graph/build.py:362-365 | While no batch is diverted, a rejected call never reaches the tool executor again. |
| Termination.ReopensIffDiverted | orchestra/graph/build.py:359-376 | A specialist can ask again for a decided signature exactly when some approval was edited into one. |
| Termination.HarmlessIsUndiverted | orchestra/graph/approval_nodes.py:113-127 | As long as every edit that comes with an approval is absent, empty or repeats what was shown, no batch is ever diverted; what comes with a rejection does not matter. |
| Termination.MeasureDrops | orchestra/graph/build.py:144-181 | Each super-step that runs no diverted batch lowers one measure: the ranks of the slots and the undecided signatures, weighted by the node. |
| Termination.EveryRunEnds | orchestra/graph/build.py:144-181 | From any checkpoint, a run in which no batch is diverted and which asks about at most K distinct calls takes at most 5 * (84 + K) + 6 super-steps, whatever is answered. |
| Termination.NeverStuck | orchestra/graph/build.py:144-181 | Every reachable checkpoint before the end has a next step. |
| Diversion.ReopensIffBatchDiverted | orchestra/graph/build.py:335-376 | Some answers make a step reopen a decided signature exactly when the step runs a batch with a subtask that holds an approval edited into a decided call. |
| Diversion.RedirectionRepeats | orchestra/graph/build.py:359-376 | A due subtask whose approval was edited is, one dispatch, batch, review and gate later, as due and as redirected as before, and only the edited call is asked about. |
| Diversion.EndlessIffEdited | orchestra/graph/approval_nodes.py:113-127 | At the action gate of a due subtask, with nothing edited before: after the answer the run can go on forever, without another edit and asking about finitely many calls, exactly when the answer approves with edits that change the call. |
| Diversion.OneEditRunsForever | orchestra/graph/build.py:359-376 | Every valid plan has, for every n, a run from the initial state of at least n super-steps with a single edit and two calls asked about. |
| Waiting.AskersAreNotDropped | orchestra/graph/build.py:250-292 | At synthesis every subtask that ever asked a human is accepted or escalated, whether its question was answered or not. |
| Waiting.LeavesQuestionIff | orchestra/graph/build.py:286-292 | Dispatch goes to synthesis with a pending signature exactly when one is pending and no subtask is due. |
| OpenQuestions.QuestionLeftOpen | orchestra/graph/build.py:72-106 | Every plan of three or more independent subtasks has a run that reaches synthesis with a signature pending: all ask, all finish after the first answer, and the second answer is the last. |
| Waiting.LeavesEscalationIff | orchestra/graph/build.py:286-292 | With an undecided escalation, dispatch goes to synthesis exactly when no subtask is due. |
| OpenQuestions.EscalationLeftUnanswered | orchestra/graph/build.py:108-142 | Every plan of two or more independent subtasks has a run that reaches synthesis with an escalated subtask nobody was asked about. |
| Resolutions.OnlyTheActionArrives | orchestra/api/routes.py:21-25 | Of a decision stored by the endpoint the gates read the action and neither edit. |
| Resolutions.EditsArriveUnderTheReadKeys | orchestra/graph/approval_nodes.py:75-127 | Stored under the keys plan and arguments, edits would arrive. |
| Resolutions.AskedFromGate | orchestra/graph/build.py:96-104 | In every reachable checkpoint an action gate shows exactly the subtask, tool and arguments its signature stands for. |
| Rulings.ActionRead | orchestra/graph/approval_nodes.py:75-142 | A gate reads approve, modify, take_over and retry exactly from these texts, and a missing action as none. |
| Rulings.GateFollows | orchestra/graph/build.py:87-142 | Whatever JSON object is stored as the answer, the gate does what its text says to what it has shown, and nothing else: to the plan with the shown confidence, to the pending call of the shown subtask, tool and arguments, or to the escalated, undecided subtask with the shown error and attempts. |
| Rulings.GateEvents | orchestra/graph/build.py:87-142 | The log of a passed gate names the call or subtask that was shown and whether the stored text allowed it. |
| Rulings.ShownIsFirst | orchestra/graph/build.py:89-121 | A gate shows the first call that is pending, or the first escalated subtask that is undecided. |
| Rulings.EndpointDecidesAction | orchestra/graph/approval_nodes.py:113-127 | Posted to the endpoint, a text approves the shown call exactly if it is approve or modify and rejects it otherwise, with the arguments that were shown. |
| Rulings.EndpointDecidesFailure | orchestra/graph/approval_nodes.py:130-140 | The shown subtask is accepted exactly for approve, sent back exactly for retry, and stays escalated otherwise. |
| Rulings.EndpointDecidesPlan | orchestra/graph/approval_nodes.py:75-110 | The shown plan runs exactly for approve and modify; any other text stops the run, as a takeover exactly for take_over. |
| Endpoint.EndpointRunsEnd | orchestra/api/routes.py:130-139 | Runs whose gates are answered with what the endpoint stores end and keep their decisions, with no condition on the humans. |
| Endpoint.EndpointModifyIsApprove | orchestra/api/routes.py:21-25 | A plan modified through the endpoint runs as it was proposed. |
| Schedule.SendsLayer | orchestra/graph/build.py:259-284 | When exactly the first k layers are accepted the scheduler sends exactly layer k, or goes to synthesis when there is none. |
| Schedule.LayersAreLongestChain | orchestra/graph/validate.py:24-31 | The number of Kahn rounds of a valid plan is the length of its longest dependency chain. |
| Schedule.BatchesAreLayers | orchestra/graph/build.py:250-292 | On a run where every review accepts first time, the k-th batch is the k-th layer and the number of batches is the longest dependency chain. |
| Driver.CrashRefinement | orchestra/worker/tasks.py:204-223 | Under any kills, redeliveries and overlaps every committed checkpoint is reached by a crash-free run all of whose other checkpoints were committed before it; a worker stands at a committed checkpoint, or at initial_state if it found none. |
| Driver.CommitsOnlyGrow | orchestra/worker/tasks.py:204-223 | Committed super-steps are never lost. |
| Driver.EffectsStayLogged | orchestra/worker/tasks.py:204-223 | The log, about which the laws on tools and approvals speak, keeps every effect of every super-step, finished or lost to a kill. |
| Driver.EndedIsOver | orchestra/worker/tasks.py:124-240 | A delivery that paused, was killed or stopped takes no further step. |
| Driver.LinearIffAtHead | orchestra/worker/tasks.py:204-223 | The history is one crash-free run, in which no super-step is done twice, exactly when every commit comes from a worker at the latest checkpoint. |
| Driver.LinearIsOneRun | orchestra/worker/tasks.py:204-223 | The checkpoints of such a history are the successive checkpoints of its last line. |
| Driver.NoOverlapNoRedo | orchestra/worker/tasks.py:204-223 | While deliveries of the task do not overlap no super-step is done twice, whatever is killed. |
| Driver.OverlapRedoesWork | orchestra/worker/celery_app.py:16-25 | With a redelivery before the first delivery has committed, two plans are committed on top of one checkpoint. |
| Provenance.SensitiveToolsAreApproved | orchestra/tools/execution.py:84-108 | Over any schedule, lost work included, a sensitive tool runs only after the action gate of exactly that subtask, tool and arguments was passed with an approval. |
| Provenance.AcceptedResultsAreVouched | orchestra/graph/build.py:451-471 | Every accepted result ever committed was accepted by one step of its own line and has not changed since: by a review that scored that content at least 0.75, or at the failure gate, which let it through as it stands. The step is in the log. |
| Provenance.ContentsAreProduced | orchestra/graph/build.py:380-405 | No content is invented: what a committed result says is empty or was answered, on its own line and in the log, by a specialist that worked on that very subtask. |
| Redelivery.AnswersItsGateIffMatched | orchestra/worker/tasks.py:96-121 | The answer a resumed worker carries was given by a human, who had been shown what the gate asks exactly when the worker was resumed for that gate. |
| Redelivery.DecisionsAnswerTheirGates | orchestra/worker/tasks.py:96-121 | If gates are only passed by workers resumed for them, every pass of a gate on every committed line, at all three gates, was answered by a human who had been shown what that gate shows, and did what the stored text says to exactly the plan, call or subtask that was shown. |
| Redelivery.HumansApproveWhatRuns | orchestra/tools/execution.py:84-108 | Under the same condition a sensitive tool runs, lost work included, only after a human was shown exactly that subtask, tool and arguments and approve or modify was stored as the answer. |
| StaleResume.StaleResumeRunsTool | orchestra/worker/tasks.py:96-121 | Without it, for every valid plan and although no deliveries overlap: one human approves one call, the resume is delivered twice, and another sensitive call runs that nobody was asked about. |
| OneAnswer.DecisionCloses | orchestra/api/server.py:298-318 | The first decision on a row closes it, so that whoever is resumed for it carries this answer, exactly when its action is not "pending". |
| OneAnswer.ClosedGateAsksNobody | orchestra/api/routes.py:61-99 | When a run comes back to a gate whose row is closed, pausing changes no row, another decision changes neither rows nor log, and a worker resumed for the gate passes it with the old answer. |
| OneAnswer.ReopenedCallKeepsItsAnswer | orchestra/worker/tasks.py:96-121 | A sensitive call whose row is closed and which is pending again is only decided as it was before, by workers resumed for it. |
| OneAnswer.OneGatePerDelivery | orchestra/worker/tasks.py:96-121 | Each delivery of a resume hands its answer to at most one gate, lost work included. |
| OneAnswer.PassesNeedDeliveries | orchestra/worker/tasks.py:96-121 | If only workers resumed for it pass a gate, it is passed no more often than its resume is delivered. |
| Registry.WindowHoldsLimit | orchestra/tools/registry.py:81-94 | No 60-second window ever holds more admitted calls than the limit. |
| Registry.RecentIsSuffix | orchestra/tools/registry.py:84-85 | Pruning drops exactly the entries that are 60 seconds old or older. |
| Registry.PruneAgain | orchestra/tools/registry.py:84-85 | Pruning the already pruned log gives what pruning the full history would give. |
| Registry.ToolRegistry.CheckRateLimit | orchestra/tools/registry.py:81-94 | A call is admitted exactly when the full history has fewer admitted calls in the last 60 seconds than the limit. |
| Registry.ToolRegistry.Execute | orchestra/tools/registry.py:58-79 | The tool is run exactly when it exists, permits the specialist and is within its limit; every refusal is an error that admits and runs nothing. |
| Registry.RunSession | orchestra/tools/registry.py:58-94 | Over a whole session of calls to any tools each call returns what the rule on the full history says, and the kept log stands for exactly the calls that rule admits. |
| Registry.SessionHoldsLimit | orchestra/tools/registry.py:58-94 | So in a session no 60-second window holds more runs of a tool than its limit. |
| Registry.ExecuteTool | orchestra/tools/execution.py:84-108 | A call that needs a decision leaves no run and no audit row; every other call leaves exactly one row with the result it returned. |
| Approvals.ApprovalsTable.RecordInterrupts | orchestra/api/routes.py:61-99 | The loop leaves the table of the specification and returns the id of every payload in order. |
| Approvals.PayloadsInOrder | orchestra/api/routes.py:74-79 | The recorded payloads are those of exactly the interrupts that carry one, in order. |
| Approvals.ApprovalsTable.Decide | orchestra/api/server.py:298-318 | Only a pending row is decided; unknown and resolved ids are refused and change nothing. |
| Approvals.RecordingTwice | orchestra/api/routes.py:61-99 | Recording a pause again changes nothing. |
| Approvals.OneFaithfulRowPerPayload | orchestra/api/routes.py:48-99 | Every gate payload has exactly one row, and what it shows never changes. |
| Approvals.RowsStayFaithful | orchestra/api/routes.py:61-99 | Over any interleaving of re-pauses and decisions every recorded gate payload keeps its one row, and the row keeps showing that payload. |
| Approvals.ResolvedRowsAreFrozen | orchestra/api/routes.py:86-89 | A row that is not pending survives any re-pauses and decisions unchanged. |
| Approvals.DecisionIsFinalIff | orchestra/api/server.py:305-311 | A decided row is final under everything that can follow exactly when the decision's action is not "pending". |
| Spans.SpanTree | orchestra/api/server.py:234-257 | The linked forest has one node per span id, and its root and child lists are those of the parent relation, in order. |
| Spans.LastRowWins | orchestra/api/server.py:236-249 | A span id has a node exactly if some row has it, and the node shows its last row. |
| Spans.KeysInOrder | orchestra/api/server.py:236-249 | Spans are placed in the order in which their ids first appear. |
| Spans.OnePlace | orchestra/api/server.py:250-257 | Every span stands in exactly one list, once: the roots, or the children of its parent. |
| Spans.ListsInOrder | orchestra/api/server.py:250-257 | The roots, and the children of each span, come in the order of the spans. |
| Spans.NodeReachableIffChainEnds | orchestra/api/server.py:250-257 | Walking the returned nodes from the roots along their children lists reaches the node of a span, and then in one way only, exactly when its parent chain ends. |
| Spans.ChainEndsIffNoCircle | orchestra/api/server.py:250-257 | The spans the forest loses are exactly those whose chain of parents runs in a circle. |
| Cache.LLMCache.Get | orchestra/evals/cache.py:29-44 | A lookup returns what either level holds, changes what no key yields, and counts one hit or one miss. |
| Cache.LLMCache.Put | orchestra/evals/cache.py:46-60 | The new response is found from then on and every other key as before; memory and table agree afterwards exactly when the table did not hold another response. |
| Cache.CachedProvider.Complete | orchestra/evals/cache.py:92-100 | The content is the uncached answer, and the provider is called exactly for keys not known yet. |
| Cache.RunSession | orchestra/evals/cache.py:22-100 | Over any requests and restarts, with or without a table of the provider's answers, all answers are the uncached ones; the provider's calls, the cache's counters, those of the processes that died and the rows of the table are those of the session specification. |
| Cache.OneCallPerKey | orchestra/evals/cache.py:22-100 | The running process has counted each of its requests once, over all processes every request is a hit or one provider call, and the provider is asked for exactly the requested keys that were not known at the start, with a table once for each, restarts included. |

## Left out

- Termination.EveryRunEnds: bounds a run by the number of distinct sensitive calls it asks about, since specialists may ask about ever new ones; the step limit that LangGraph puts on one invocation is not part of this model.
- Driver.CrashRefinement: a super-step is committed as a whole; the writes of single finished branches that LangGraph may keep across a kill are not modelled.
- Diversion.EndlessIffEdited: is about the engine alone, whose gates take an answer whenever they ask; what the approvals table makes of it is in OneAnswer. It says nothing about a question whose subtask has finished meanwhile; whether that subtask becomes due again depends on later reviews and answers.
- Redelivery.HumansApproveWhatRuns: concurrent `resume_task` deliveries read their row and the latest checkpoint in one step each; the status columns of task and run rows are not modelled.
- Plans.Cycles: returns a set; the sorting of the ids in the error message is not modelled.
- Engine.NodeSupervisor: a supervisor, reviewer or writer call that raises stops the worker and is covered only as a kill.
- Registry.ExecuteTool: an audit insert that fails after the tool ran is not modelled, nor is a tool layer that raises after a run.
- Cache.CachedProvider.Complete: `complete_structured` shares the keys of `complete` and is not modelled; the table has one writer.
- Prompt texts, shared context, memory retrieval and extraction, spans, cost records and task rows: they influence only what the LLM is asked, which is an arbitrary input.
- The merge of memory-id lists: written by one node only.
- LangGraph, Celery and Postgres themselves: super-step commits, at-least-once delivery and the upsert are taken as their documentation describes them.
- Concurrent decide requests for one approval: the check and the update are two statements, so requests are taken one at a time.
- Tool sandbox, HTTP and SQL tools, sanitizer, MCP server, replay, evaluation harness and web pages: outside the run engine.
- The approvals table's timestamps, and other columns of span rows: no code in the model reads them.
