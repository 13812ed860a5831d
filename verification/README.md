# Governed runs, outward calls and intake: a verified model

This project models the part of the company runtime that decides what may happen, and proves what it promises about every run, every interleaving and every crash.

* **The governed run.** A validated workflow becomes a run: a hash-chained log of snapshots that only a fixed set of verbs may extend. `RunModel` states each verb as a function of the last row, `RunDraft` and `RunStore` write the same verbs and the same door (`mutate`) step by step and are proved against those functions, and the other `Run*` modules prove laws about every log that any sequence of requests can reach, `RunDoor` among them exactly which requests get through; `Cycles` says what the admission check's search for cycles means, and `RunExamples` exhibits runs in which the code does not do what it is said to do.
* **The driver.** `Names` and the `Driver*` modules cover the deterministic request ids and the loop that moves every step it may; agents, checkers, clocks and disks are an arbitrary tape of answers. `DriverRecords` says, of the log's rows alone, what must stand there after each answer.
* **The outward call.** `GatewayModel` is the write-ahead protocol as concurrent callers see it, one database transaction or one network action a step, with a crash possible between any two; `GatewaySafety` and `GatewayTruth` prove at-most-once and honest settlement; `GatewayGrants` traces every request that leaves back to the person who granted it; `GatewayNames` says exactly when a good approval is refused; `GatewayStore` holds the transactions and the gateway as imperative code.
* **Intake and the clock.** `Intake` is the serial queue, `IntakePasses` what one pass of it does, `Schedule` the due-time fence, `ScheduleSweeps` what an undisturbed sweep does and `ScheduleRaces` what a won claim comes to, `Limiter` the sliding-window rate limiter.

## How to read it

`Reached(log)` holds exactly of the logs that some admitted workflow and some sequence of requests produce; a lemma that requires it speaks about every reachable state of every run. A row is a whole snapshot, so `log[i]` is the run after its i-th event. `Play(...)` plays the same part for the gateway, the queue and the schedules: arbitrary steps of arbitrary participants in arbitrary order.

Money is in whole micro-dollars, times in whole seconds (microseconds in `Schedule`), digests are compared as the values they are digests of, except in `EventChain`, where the digest is an arbitrary function and nothing is assumed of it: a forged history shows up as an explicit collision.

## Where the code and its documentation part

* Approving a budget stop is described as buying one more ceiling's worth. The code adds the *current* ceiling to the current spend (`runtime/run_verbs.py:90-91`). `RunMoney.ApprovalBuysTheCeiling` proves that an approval buys exactly a base ceiling if and only if it is the run's first, and strictly more otherwise; `RunExamples.SecondApprovalBuysMore` is a run whose second approval buys two. All it asks of the log is one positive base ceiling and no budget stop before that much is spent; `Driver` keeps to that, although it takes the ceiling from an older snapshot. That an approval always buys a dispatch needs only the base ceiling (`RunMoney.ApprovalBuysADispatch`).
* `check_claim` lets a caller without a token through (`runtime/run_state.py:78`), and neither time nor an operator's expiry ends a token. `RunFencing.TokenEnds` says exactly which events do, `RunFencing.HandBackIsAccepted` exactly who may hand a step back, and `RunExamples.ExpiredHolderFinishes` is a run in which the holder of an expired claim does, and a caller without a token could.
* The request that runs into the cycle ceiling leaves its id on the ceiling's own row, so it is refused after an extension (`RunReplay.ReissueChangesNothing` and `Names.MoveIsNotSwallowed` say exactly when, `RunExamples.CeilingRequestIsRefused` is a run in which it happens).
* Yellow steps gain no attempts, so the second claim of one carries the first one's name and is swallowed unless a release came between (`Names.YellowReclaim` gives the exact condition, `RunExamples.SecondYellowClaimIsSwallowed` the run). To the driver that is no error, so a run whose open steps are all such steps is left as it is by every pass, until the passes run out (`Driver.Driver.Advance`).
* A driver that dies between filing a verdict and recording it cannot file one again while the step awaits its check (`Driver.FiledReviewIsStranded`, `Driver.FiledReviewStaysStranded`, and the run `RunExamples.FiledVerdictBlocksTheNext`), and a checked step whose id is longer than 51 characters can never be reviewed by the driver, because the message id it derives is too long (`Driver.LongStepsCannotBeReviewed`).
* `expired` is never a stored approval status: the update is written and then rolled back by the exception that follows it, as `GatewayStore.Store.ConsumeApproval` and `GatewayStore.Store.DecideApproval` show statement by statement, so no history stores it (`GatewaySafety.ExpiredIsNeverStored`).
* A good approval's first use can be refused: the `consume-...` event name is made of connector and key with a hyphen between, and it shares a table with the clients' own request ids. `GatewayNames.GoodApprovalRefused` gives the exact condition in every reachable database, `GatewayNames.AnotherKeySharesTheName` and `GatewayNames.ProposalTakesTheName` a history for each cause. A settlement is recorded as `settle-...` in another table that clients' request ids share: a client that takes the name first makes the settlement fail and leaves its receipt in flight for ever (`GatewayNames.SettlementRefused`, with the history `GatewayNames.ClientTakesTheSettlement`).
* A call is not to be answered with an earlier one that is unresolved. The look before it spends sees to that, but the spending itself looks again and does not: a call overtaken between the two is answered with the other's receipt although that is in flight (`GatewayNames.OvertakenCallIsAnswered`; `GatewayStore.Gateway.Open` and `GatewayStore.Gateway.Pay` say what each of the two answers).
* The queue cap of 50 is looked up in one transaction and applied in another: the queue holds up to fifty rows and as many more as callers ever stood between the two at once (`IntakeSafety.QueueIsCapped`), and that many it can reach, fifty-one with one caller at a time and fifty-two with two (`IntakeExamples.FiftyOneWait`, `IntakeExamples.CapIsReached`).
* One run at a time is what a pass sees when it looks: it plans for minutes and does not look again, so a run that a person sets moving meanwhile gets another beside it (`IntakeSafety.CreationIsSerial`, `IntakeExamples.CreatedBesideAnother`).
* A request can be given up although its run exists (`IntakeSafety.AbandonedRun` says exactly when, `IntakeExamples.GivenUpWithRun` shows it).
* A sweeper can win a claim and queue nothing, because the row is named by the due time as read and not as claimed (`ScheduleRaces.ClaimEnds` says exactly when). The name is that of the claim only if the stored time had not moved on (`ScheduleRaces.ClaimIsNamedAsRead`), and a due time is queued exactly if a sweeper that had read it found room for it (`ScheduleRaces.QueuedByItsReader`); so a due time can pass that nobody queues (`ScheduleRaces.ADueTimeIsLost`).
* The rate limiter reads the clock before it takes the lock, so its readings can come out of order and a window can hold more than the maximum (`Limiter.LateReadingOverflows`). For a maximum of two or more, a window is safe exactly if it is shorter than the configured one by as much as readings are late; a maximum of one is kept whatever they do (`Limiter.SafeLengths`).

## Model

| member | source | states |
|---|---|---|
| Workflows.DepthFirst.Visit | runtime/run_state.py:152-158 | the two-set visit terminates, leaves the visiting set as it found it, reports only nodes that depend on themselves, and, while it reports none, keeps a rank of all finished nodes; on a rankable graph it reports nothing |
| Workflows.FindCycles | runtime/run_state.py:147-159 | a cycle is reported exactly when no rank puts every dependency below its dependent, and every node reported lies on one |
| Workflows.CheckStep | runtime/run_state.py:120-146 | every rule the step breaks is reported, and nothing else; nothing exactly when it meets them all |
| Workflows.ValidateWorkflow | runtime/run_state.py:110-159 | a workflow is admitted exactly when its header, ids, steps and limits are legal and its dependencies are acyclic; a bad header is reported alone, otherwise every broken rule of every step is, and a cycle if there is one |
| Cycles.AcyclicMeansNoCircle | runtime/run_state.py:147-159 | for steps with distinct ids, a rank of the dependencies exists exactly when no step depends on itself through however many others |
| RunInvariants.VerbMoves | runtime/run_verbs.py:37-205 | every accepted verb takes one movable step to another legal condition, keeps its limits and dependencies, and asks for exactly the run status that condition forces |
| RunInvariants.CommitKeepsPending | runtime/run_outcomes.py:23-26 | completing a step frees exactly the steps it was the last to block: pending stays equivalent to having an unfinished dependency |
| RunInvariants.CommitKeepsMoney | runtime/run_outcomes.py:36-57 | a charge lands on the step and on the run alike |
| RunInvariants.NewRunIsOk | runtime/run_verbs.py:15-34 | a run created from an admitted workflow meets the whole bookkeeping invariant |
| RunInvariants.SuccessorKeepsRow | runtime/run_state.py:264-294 | every accepted request, the cycle ceiling and an extension keep the bookkeeping invariant and the shape of every step |
| RunInvariants.RowsAreOk | runtime/run_state.py:264-294 | the invariant holds in every row of every reachable log: limits, counters, statuses, claims, blocked steps, forced run status, cycle budget and money |
| RunInvariants.Between | runtime/run_state.py:276-294 | across two neighbouring rows a step either moved by the very verb the row records about it, or was left alone, freed, or had its claim dropped |
| RunProgress.NoDeadlock | runtime/run_outcomes.py:23-26 | in every reachable active run some step is ready, in progress, awaiting a check or awaiting a person |
| RunProgress.HealthIsTruthful | runtime/health.py:65-88 | the verdict that nothing can move and nobody is waited for is never given; every other one, idle against running and each way of having ended included, is given exactly when it is true, with the true number of steps |
| RunLedger.AttemptLedger | runtime/run_verbs.py:43-54 | for a green step, attempts are the review returns, failures and budget resumes in the log, plus one while an attempt is out or stands; attempts and releases together are the claims granted |
| RunLedger.RetryCap | runtime/run_outcomes.py:153-164 | a step is dispatched at most `max_attempts` times beyond its releases and is blocked on retries only after exactly that many failures, resumes and returns |
| RunLedger.ReviewCap | runtime/run_review.py:119-129 | a step is sent back at most as often as it may be reviewed, and is blocked on reviews only after exactly that many returns in the log |
| RunLedger.LimitsStrike | runtime/run_outcomes.py:153-164 | a claim, a failure and a return strike their limit exactly when the log holds as many failures, resumes and returns as the limit allows; otherwise the step goes on |
| RunLedger.ReviewFloor | runtime/run_state.py:134-140 | with the two spare attempts admission demands, a checked step that met at most one failure or budget stop never ends its run on the retry limit |
| RunLedger.LogIsMetered | runtime/run_state.py:276-292 | a log's length is one plus its cycles, ceiling hits and extensions, and every hit but the last has been extended |
| RunLedger.RunLifetime | runtime/run_outcomes.py:79-99 | cycles never exceed the maximum, the maximum never exceeds 100, and no log ever holds more than 300 events |
| RunLedger.OnlyBudgetReopens | runtime/run_outcomes.py:84-92 | the only ended run that ever moves on is one out of cycles, by an extension that strictly raises its maximum and touches no step |
| RunLedger.ExtensionGrants | runtime/run_outcomes.py:60-100 | an extension is granted exactly to a run out of cycles and below a hundred, by somebody named, for one to a hundred cycles, under a new id; it grants exactly those, or as many as the hundred leaves |
| RunLedger.GrantIsUsedUp | runtime/run_state.py:276-292 | from the first row, or an extension, to the next time the ceiling is hit the log has exactly as many rows as that stretch was granted cycles |
| RunFencing.TokenOrigin | runtime/run_state.py:56-64 | every token names the event that granted it: a request or a takeover of this very step, at which the token became the step's |
| RunFencing.TokensIncrease | runtime/run_state.py:56-64 | a newly minted token is later than every token any step carried before |
| RunFencing.TokenEnds | runtime/run_state.py:56-68 | a token ceases to be current exactly when its step is taken over or handed back or the run is cancelled; an expiry keeps it |
| RunFencing.TokensAreUnique | runtime/run_state.py:56-64 | no two steps ever carry the same token, in one state or in different ones |
| RunFencing.DeadTokensStayDead | runtime/run_state.py:56-68 | a token that was superseded or released is never current again |
| RunFencing.StaleHolderIsFenced | runtime/run_state.py:71-81 | a complete, fail, hold, release or renewal that carries a dead token is never applied, at any later point and under any request id |
| RunFencing.HandBackIsAccepted | runtime/run_state.py:71-81 | under the owner's name a step is handed back exactly with the current token, or with none while it is in progress; the time plays no part |
| RunExamples.ExpiredHolderFinishes | runtime/run_verbs.py:154-169 | a run in which a claim is expired by an operator and its holder's completion is applied, as would be one without a token |
| RunFencing.LiveClaimIsNeverTaken | runtime/run_verbs.py:122-132 | whoever holds a live claim when an event happens still holds it afterwards, or nobody does |
| RunFencing.LeaseOrigin | runtime/run_verbs.py:135-169 | a claim's expiry was last set by its grant, a takeover, a renewal by its holder or an operator's expiry, and has stood unchanged since; grant and takeover minted the current token, renewal and expiry kept it, and after an expiry the claim is not live |
| RunReplay.RequestIdsAreDistinct | runtime/run_state.py:271-274 | no two rows of a run share a request id |
| RunDoor.DoorLaw | runtime/run_state.py:264-294 | in every reachable run at work with cycles left a request under a new id is carried out exactly when its sender may make it: all thirteen verbs, messages and cancellation |
| RunDoor.PlanIsKept | runtime/run_verbs.py:15-34 | in every row a run has exactly the steps of its workflow, each with the people, limits and dependencies of the plan and the risk of the policy; it begins with the plan's cycles and exactly the steps ready that wait for none |
| RunReplay.ReissueChangesNothing | runtime/run_state.py:269-274 | re-issuing a request or an extension whose row is in the log changes nothing, whatever happened since; it is answered as a replay exactly when it was applied and its evidence is still there, and refused when it had hit the ceiling |
| RunExamples.CeilingRequestIsRefused | runtime/run_state.py:271-287 | a run whose completion hit the cycle ceiling and is refused as a reused name after an extension |
| RunGate.StretchBeginsWithApproval | runtime/run_verbs.py:69-97 | every stretch a yellow step spends in progress begins with its own approval |
| RunGate.DoneMeansApproved | runtime/run_outcomes.py:136-150 | a completed yellow step was completed straight out of such an approved stretch |
| RunGate.RedNeverRuns | runtime/run_verbs.py:42 | a red step never starts, its run never completes, and everything downstream of it stays pending in every row |
| RunReview.ReviewStep | runtime/run_review.py:106-116 | a checked step is passed only from awaiting its check, by its checker, with the checker's own decision on file |
| RunReview.NobodyPassesTheirOwnWork | runtime/run_review.py:106-140 | a completed checked step was handed in by its owner, stood untouched while it awaited its check, and was passed by somebody else |
| RunReview.VerdictSeesTheSubmission | runtime/run_outcomes.py:29-33 | a verdict is recorded only while the submission and the verdict's text still have the digests they were filed with |
| RunReview.MessagesAreSound | runtime/run_review.py:64-92 | in every state message ids are distinct, each message is between two different parties of a step or a neighbouring edge, and each reply reverses an earlier message about its step |
| RunMoney.MoneyIsConserved | runtime/run_outcomes.py:36-57 | a run's spend is its planning seed plus its steps' spends in every row, and neither falls |
| RunMoney.BillIsNamed | runtime/run_outcomes.py:36-57 | a run has spent what its planning cost and what the requests carried out in its log named, and nothing else |
| RunMoney.ApprovalBuysADispatch | runtime/run_verbs.py:78-97 | right after an approved budget stop the run is strictly below its ceiling, however steps come to be parked |
| RunMoney.ApprovalBuysTheCeiling | runtime/run_verbs.py:78-97 | an approved budget stop buys the ceiling that stood: one base ceiling exactly on the first approval, strictly more on every later one, at least k + 1 after k earlier ones; given only that no step is parked on the budget before a base ceiling is spent |
| RunExamples.SecondApprovalBuysMore | runtime/run_verbs.py:90-91 | a run with two approved budget stops under a base ceiling of one: the first buys one, the second two |
| RunMoney.CeilingHistory | runtime/run_verbs.py:78-97 | after k approved budget stops the ceiling is at least k + 1 base ceilings, and while a step waits on the budget at least one base ceiling is spent |
| RunMoney.SnapshotCeiling | runtime/executor_steps.py:145-147 | every row of such a run, so whatever snapshot a pass began with, shows no ceiling of its own or at least a base ceiling |
| RunAudit.EveryRowIsAccountedFor | runtime/run_state.py:264-294 | wherever the process dies, every gated or run-ending row in the log has its audit lines written, in order, and the log is one that uninterrupted requests produce |
| RunAudit.CrashFreeRecordIsExact | runtime/run_state.py:257-261 | without crashes the audit record is exactly what the log owes: one line a gate, one terminal line an ending |
| RunAudit.NoLineNoRow | runtime/run_state.py:289-293 | an audit line that cannot be written leaves the log as it was |
| EventChain.ReadEvents | runtime/run_state.py:185-200 | reading succeeds exactly on a non-empty file whose every record continues the one before it, and yields its rows |
| EventChain.AppendKeepsReadable | runtime/run_state.py:203-214 | appending the next-numbered row keeps the file readable and adds that row |
| EventChain.HeadDeterminesHistory | runtime/run_state.py:185-214 | two files that verify and end in one hash are identical record for record, or exhibit two contents with one digest |
| RunDraft.Draft.RequestStep | runtime/run_verbs.py:37-54 | the closure's edits are the specified effect of a request, or it refuses for the specified reason |
| RunDraft.Draft.ApproveStep | runtime/run_verbs.py:69-97 | likewise for an approval, with the ceiling it buys |
| RunDraft.Draft.HoldStep | runtime/run_verbs.py:172-191 | likewise for a hold |
| RunDraft.Draft.CompleteStep | runtime/run_outcomes.py:136-150 | likewise for a completion, with its submission, its charge and the steps it frees |
| RunDraft.Draft.FailStep | runtime/run_outcomes.py:153-164 | likewise for a failure and the retry limit |
| RunDraft.Draft.ReleaseStep | runtime/run_outcomes.py:180-195 | likewise for a release, which gives the attempt back |
| RunDraft.Draft.ReturnCheck | runtime/run_review.py:119-129 | likewise for a review return and the review limit |
| RunDraft.Draft.FreeDependents | runtime/run_outcomes.py:23-26 | freeing the table step by step is freeing it all at once, and the run completes exactly when every step has |
| RunDraft.Draft.SendMessage | runtime/run_review.py:64-92 | the closure appends exactly the specified message or refuses for the specified reason |
| RunDraft.Draft.CancelRun | runtime/run_outcomes.py:122-125 | cancelling drops every claim in progress and nothing else |
| RunStore.Run.Mutate | runtime/run_state.py:264-294 | the door leaves file and audit record exactly as the model's interrupted request does, reports what happened, and keeps a governed run governed |
| RunStore.Run.ExtendBudget | runtime/run_outcomes.py:60-100 | the extension looks for a replay before it looks at the status, and leaves exactly the specified row and audit line |
| RunStore.Run.CreateRun | runtime/run_verbs.py:15-34 | a run is created exactly from an admitted workflow, a legal unused id and a working disk, and is governed from its first row on |
| Approvals.DownstreamCount | runtime/approvals.py:104-113 | the worklist terminates and returns the number of transitive dependents |
| Approvals.BlockedUntilDecided | runtime/approvals.py:104-113 | every step counted for a decision is pending in every row in which the deciding step is not completed |
| Approvals.DepthFollowsChain | runtime/approvals.py:116-123 | the depth of a step is strictly greater than that of anything it depends on |
| Approvals.DepthIsLongestChain | runtime/approvals.py:116-123 | a step is as deep as the longest chain of dependencies that leads to it: one is that long, and none is longer |
| Approvals.WaitingDecisionsAreIndependent | runtime/approvals.py:126-134 | everything upstream of a step that waits for a person is completed, so no decision is offered before one it depends on |
| Names.NameIsInjective | runtime/executor_core.py:125 | the rendered request id determines step, attempts, releases and verb, although step ids contain hyphens and digits |
| Names.NamesAreExactlyOnce | runtime/executor_core.py:97-125 | over a whole run no two applied claims, completions, failures or releases of green steps share a derived id |
| Names.NamesAreKept | runtime/executor_core.py:97-125 | while every move goes out under its step's name and nothing else does, a move's name in the log always stands for that very move at those very counters, and every claim stands under its name |
| Names.MoveIsNotSwallowed | runtime/executor_core.py:119-125 | in a run moved under the driver's names, a green step's next move is never taken for a replay, after a release in particular; the one exception is a name a ceiling row used up |
| Names.YellowReclaim | runtime/executor_core.py:128-132 | in a run moved under the driver's names, a yellow step's next claim is swallowed exactly when an earlier claim of it was logged and no release since |
| RunExamples.SecondYellowClaimIsSwallowed | runtime/executor_core.py:128-132 | a yellow step that was claimed, approved and failed is ready again, and its next claim is swallowed |
| DriverMoves.QuietMove | runtime/executor_core.py:97-142 | in a run nobody else moves, each of the driver's moves is new to the log, leaves the run in the same condition, and changes the weight of the run by that of its step alone |
| DriverMoves.QuietRecord | runtime/checking.py:100-110 | recording a verdict is never mistaken for the message filed with it, and is worth one pass |
| Driver.Driver.Begin | runtime/executor_drive.py:59-87 | a ready step of a quiet run is claimed for this holder and lighter by two, or its attempts or the cycles are used up; a step in another live holder's hands is left, and one whose claim has lapsed is taken over |
| Driver.Driver.Work | runtime/executor_drive.py:88-133 | of a step in hand: from the snapshot's ceiling on it is parked at no price, below it the answer to its dispatch is on record; accepted work is handed in; at most one pass is given back, plus one for an agent that was busy |
| Driver.Driver.Dispatch | runtime/executor_drive.py:95-133 | the answer is on record as what it is, at its price: released, failed, held or handed in; an answer counts as missing exactly if the agent was busy |
| Driver.Driver.FinishApprovedHold | runtime/executor_steps.py:99-131 | work held ungraded that a person has accepted is handed in, unless the run is out of cycles |
| Driver.Driver.DriveStep | runtime/executor_drive.py:59-133 | a ready step of a quiet run is claimed and then worked on as its answer says, and comes to rest having lowered the run's weight, or the agent was busy; no approval, rejection, cancellation or extension is ever written, and every request goes out under the name that says what it is |
| Driver.Driver.DriveCheck | runtime/checking.py:80-113 | a review counts as missing exactly if none came or the submission has changed, and then nothing is written; one that came is on record as the checker's message and then its verdict, and leaves the step completed, ready or blocked as it says; likewise for the run's weight |
| Driver.Driver.Pass | runtime/executor_drive.py:165-184 | a pass over a quiet run requests every ready step, and lowers the run's weight unless an answer was missing or the run ended |
| Driver.Driver.ParkOverBudget | runtime/executor_steps.py:134-177 | from the ceiling on, the snapshot's or else the base, a step in hand is parked at no price, if its notice is on disk and cycles are left; below it nothing happens; a parked step leaves the run quiet and no heavier; under one positive base ceiling nothing is parked before that much is spent |
| Driver.Driver.Advance | runtime/executor_drive.py:136-184 | driving ends settled only if the run ended or every open step is in another live holder's hands or awaits a person, and suspended only on a look that found it so; it runs out of passes only if given fewer than the run's weight plus two plus the looks that found an answer missing; in a world that keeps its files and never repeats a message id it raises only on a run that has ended; a run whose open steps can all not be claimed it leaves exactly as it is |
| Driver.FreshRunIsQuiet | runtime/executor_drive.py:136-184 | a new green run weighs twice its attempts in all, which makes the bound for `Advance` two passes more than that, and it has no messages yet, so that an obliging world gives no cause to raise |
| Driver.FiledReviewIsStranded | runtime/checking.py:41-52 | once a verdict message of the present attempt is in the log, filing another is refused, and exactly then |
| Driver.FiledReviewStaysStranded | runtime/checking.py:41-52 | the refusal stands through every later row while the step awaits its check |
| RunExamples.FiledVerdictBlocksTheNext | runtime/checking.py:41-52 | a run in which a verdict was filed and not recorded, and every other verdict is refused |
| Driver.LongStepsCannotBeReviewed | runtime/checking.py:26-27 | the id of a checker's message is legal exactly for step ids of at most 51 characters |
| GatewayStore.Store.CreateApproval | runtime/db_runs.py:115-128 | the transaction inserts the approval and its event, both or neither |
| GatewayStore.Store.DecideApproval | runtime/db_runs.py:160-185 | the transaction decides a pending, unexpired, exactly matching approval of somebody else, or rolls everything back, the update to `expired` included |
| GatewayStore.Store.ConsumeApproval | runtime/db_connectors.py:252-289 | the transaction spends the approval and records receipt and event together, finds the earlier receipt, or rolls everything back, the update to `expired` included |
| GatewayStore.Store.SettleReceipt | runtime/db_connectors.py:155-179 | a receipt is closed only while it is in flight, only once, and only if nothing was recorded under the settlement's name; otherwise the update is rolled back |
| GatewayStore.Gateway.Open | runtime/live_gateway.py:154-174 | a call is turned away, refused as reused or unresolved, answered with the settled receipt, or goes on, each exactly when it should |
| GatewayStore.Gateway.Pay | runtime/live_gateway.py:175-186 | a call goes on to send exactly if the transaction recorded its own receipt and the audit line was written; otherwise it ends with the refusal, or with the receipt that is on record |
| GatewayStore.Gateway.Execute | runtime/live_gateway.py:154-205 | with any steps of others between any two of its own and whatever crash, the gateway does a prefix of one caller's program; a call that reports its own receipt went through all of it, sent exactly this request and settled as answered; an earlier attempt under the key answers it, unless it was another action's or is unresolved; and a call that nothing hinders succeeds |
| GatewaySafety.DoKeepsWorld | runtime/live_gateway.py:154-205 | every step of every participant keeps the protocol's invariant |
| GatewaySafety.AtMostOneSend | runtime/live_gateway.py:154-205 | no two requests ever leave under one receipt, one connector and key, or one approval |
| GatewaySafety.EverySendIsCovered | runtime/live_gateway.py:176-186 | for every send of any history there is the moment before it at which its receipt was durable and in flight and its approval spent on exactly this action and payload, decided by somebody other than its requester |
| GatewayGrants.EverySendWasGranted | runtime/db_runs.py:160-185 | before every send of any history its approval was granted, by somebody else than asked for it and while it was pending and in time, and then spent in time on exactly this action |
| GatewayGrants.EverySendWasAdmitted | runtime/live_gateway.py:131-174 | every request that leaves was made of an action authorized as the call began, with the approved payload, and by a caller that had its secret and found nothing under its key |
| GatewayGrants.RefusedNeverSends | runtime/db_runs.py:160-185 | nothing ever leaves under an approval that was refused |
| GatewayGrants.DecisionLaw | runtime/db_runs.py:160-185 | a decision counts exactly when somebody else than the requester makes it, of a pending approval in time, about exactly its action, under a name of its own |
| GatewaySafety.ApprovalIsSpentOnce | runtime/db_connectors.py:262-288 | an approval is spent at most once and never changes again, nor does the record of what it was spent on |
| GatewaySafety.SettledReceiptStays | runtime/db_connectors.py:155-179 | a settled receipt never changes, not even one settled as unknown |
| GatewaySafety.OrphanIsLeftToAPerson | runtime/live_gateway.py:166-172 | a receipt whose caller died stays as it is for ever, and nothing leaves under its key again |
| GatewayTruth.SettlementIsHonest | runtime/live_gateway.py:104-113 | a settled receipt is accepted only on a two-hundred answer, failed only if nothing left or the provider clearly refused, in flight only if something left and its effect is unknown; its note is what is told of that answer |
| GatewayNames.GoodApprovalRefused | runtime/db_connectors.py:286-288 | in every reachable database the first use of a key spends an approval exactly when it is good for the action and in time and the name is free; a good one is refused exactly when a key on record joins to the same text or a proposal or decision was recorded under the name |
| GatewayNames.ProposalTakesTheName | runtime/api.py:139-143 | a history of one proposal and one decision after which the approval cannot be spent, with no receipt on record |
| GatewayNames.AnotherKeySharesTheName | runtime/live_gateway.py:183-185 | a history in which two keys of two connectors join to one text and the second is refused |
| GatewayNames.SettlementRefused | runtime/db_connectors.py:155-179 | in every history a caller's settlement is refused exactly when a client's request was recorded under its name; then nothing is written and the receipt stays in flight for ever |
| GatewayNames.ClientTakesTheSettlement | runtime/db_connectors.py:172-177 | a history in which the provider accepted and the settlement's name is taken |
| GatewayNames.OvertakenCallIsAnswered | runtime/live_gateway.py:180-182 | a history of two calls under one key in which the second is answered with the first one's receipt although that is in flight |
| Intake.Desk.CountQueued | runtime/triggers.py:111-117 | a caller goes on to insert exactly when at most fifty wait as it counts |
| Intake.Desk.EnqueueTrigger | runtime/db_triggers.py:89-105 | a request is queued, last and untried, exactly when its id is new; otherwise nothing changes |
| Intake.Desk.Enqueue | runtime/triggers.py:111-118 | with anything happening between the two, a count and then, if at most fifty waited, an insert |
| Intake.Desk.SettleTrigger | runtime/db_triggers.py:162-183 | only a queued row is settled, and no other row changes |
| Intake.Desk.StartQueued | runtime/triggers.py:172-257 | one pass gives up the rows out of chances and gives the first other one its turn, as the model's pass does |
| IntakePasses.PassLaw | runtime/triggers.py:172-257 | a pass looks at no more of the queue than its limit, gives up the requests at the front that are out of chances, charged once more, and then gives the next one it may look at its turn, and nobody else |
| IntakePasses.StartedNamesItsRun | runtime/triggers.py:194-252 | in every history a started request names its own run, which exists, and no other request names one |
| IntakeSafety.DoKeeps | runtime/triggers.py:172-257 | every event and every pass, dying or not, keeps the queue's invariant |
| IntakeSafety.FirstInFirstOut | runtime/db_triggers.py:105-122 | once a request is planned, started or has a run, no earlier one is waiting; runs are created in order of arrival |
| IntakeSafety.SettledRowStays | runtime/db_triggers.py:162-183 | a request that was started, given up or withdrawn never changes again, whatever pass was planning it |
| IntakeSafety.OneRunPerRequest | runtime/triggers.py:194-205 | each creation is for another row and another run id, although passes die between creating a run and saying so |
| IntakeSafety.ThreeChances | runtime/triggers.py:183-191 | no request is charged a fourth attempt, and none is given up before its third |
| IntakeSafety.AbandonedRun | runtime/triggers.py:240-252 | a given-up request has a run exactly when its last chance failed after the run was on disk |
| IntakeExamples.GivenUpWithRun | runtime/triggers.py:240-252 | a history of two failures and one after the run was on disk, at the end of which a request is given up although its run exists |
| IntakeSafety.CrashIsAdopted | runtime/triggers.py:196-205 | a run left behind by a dying pass is adopted by the next one, which creates nothing |
| IntakeSafety.CreationIsSerial | runtime/triggers.py:206-218 | only a pass creates a run, one at most, and only if nothing moved when it looked |
| IntakeExamples.CreatedBesideAnother | runtime/triggers.py:206-218 | a history in which a run starts to move while the planner works, and another is created beside it |
| IntakeSafety.QueueIsCapped | runtime/triggers.py:111-118 | in every history the requests waiting and the callers between counting and inserting are together at most fifty and the most such callers there ever were; a caller gets there exactly while at most fifty wait |
| IntakeSafety.PeakIsKept | runtime/triggers.py:111-118 | no state of the history has more callers between counting and inserting than that number |
| IntakeExamples.CapIsReached | runtime/triggers.py:111-118 | for every n, a history with at most n callers between counting and inserting after which fifty and n requests wait |
| IntakeExamples.FiftyOneWait | runtime/triggers.py:111-118 | fifty-one different arrivals all wait, and the fifty-second is turned away |
| Schedule.NextFireIsNext | runtime/triggers.py:60-74 | the next time is strictly later; a daily one is the first moment after the given one at which that time of day strikes, within 24 hours |
| Schedule.ClaimAdvances | runtime/db_triggers.py:75-87 | a successful claim takes a due time that has come and moves the stored time strictly onward |
| Schedule.ClaimsOnlyAdvance | runtime/db_triggers.py:75-87 | under any interleaving of sweepers with stale readings the claims of a schedule form a rising chain, so no due time is claimed twice |
| Schedule.PausedIsNeverClaimed | runtime/db_triggers.py:45-91 | a schedule that is switched off stays off until it is switched on, although it be created again, and no sweeper claims it meanwhile, whatever it had read before |
| Schedule.EachDueTimeIsQueuedOnce | runtime/triggers.py:121-143 | each due time is queued at most once and never early, and no more rows are queued than claims were won |
| Schedule.Scheduler.ClaimDueSchedule | runtime/db_triggers.py:75-87 | the update wins exactly when the schedule exists, is on and is still due, moves its stored time strictly up when given a later one, touches no other schedule, and changes nothing when it loses |
| Schedule.Scheduler.FireDueSchedules | runtime/triggers.py:121-143 | one sweep is a run of its sweeper's own steps that leaves nothing of its reading over, and undisturbed it is the whole sweep |
| ScheduleSweeps.SweepFires | runtime/triggers.py:121-143 | an undisturbed sweep moves exactly the schedules that are on and due to their next time, queues each under the time it was due unless the queue is full, and queues nothing else |
| ScheduleRaces.ClaimEnds | runtime/triggers.py:121-143 | a won claim stands until its sweeper queues it or is stopped, and adds no row exactly when the sweeper was stopped, the queue was full, or the due time as read was queued already |
| ScheduleRaces.ClaimIsNamedAsRead | runtime/triggers.py:121-143 | the row of a won claim will be named by the due time the claim took exactly when the stored time is the one that was read |
| ScheduleRaces.QueuedByItsReader | runtime/triggers.py:121-143 | in every history a due time is queued exactly if some sweeper that had won under that very name pushed it to a queue with room |
| ScheduleRaces.ADueTimeIsLost | runtime/triggers.py:121-143 | two sweepers that read one due time win two claims and queue one row; the schedule has moved past a due time nobody queued |
| Limiter.RateLimiter.Allow | runtime/api.py:41-57 | a call is admitted exactly when the deque, trimmed of what left the window, is short of the maximum, whatever order the clock readings come in |
| Limiter.DequeIsTheWindow | runtime/api.py:41-57 | for readings in order the deque is exactly the admissions of the last window, and a call is refused exactly when that window already holds the maximum |
| Limiter.NoWindowOverflows | runtime/api.py:41-57 | for any readings, no half-open window shorter than the configured one by the readings' skew, wherever it lies, ever holds more than the maximum |
| Limiter.SafeLengths | runtime/api.py:41-57 | over readings with a given skew, a maximum of two or more is kept in every window of a length exactly if that length is at most the configured one less the skew; a maximum of one exactly if it is at most the configured one |
| Limiter.LateReadingOverflows | runtime/api.py:47-50 | four readings, the last one late, that are all admitted although three of them lie in one window for two |

## Left out

- HTTP servers, routes, identities, CORS and the consoles; command-line parsing and printing.
- Prompts, grading, planning and the model calls themselves: a dispatch is one of five outcomes with a cost, a review one of three rulings or none, a plan one of five endings.
- Sockets, TLS, name resolution and partly sent requests: the transport is an oracle with three answers, and bytes that left before a send failed count as never sent, as the code records them.
- SHA-256, HMAC and JSON text: actions, due times and payloads are compared as values; two digests of different values are taken to differ, except in `EventChain`.
- Random ids: a receipt id that is already on record is never drawn again, and a new checker message id is not already in the log; at-most-once rests on the first.
- The run's file lock and SQLite: requests to one run do not overlap, and a database transaction is atomic.
- Torn writes: a line or row is either written or not.
- Text that no decision on a run reads: reasons, notes, feedback references, goals, organizations, the approval brief, and a message's subject and classification, which are checked before the run is entered.
- Run files other than the log, and audit lines of other runs; the audit log's own chain.
- Runs of other organizations and runs created by hand under a queue's run id.
- The order in which the driver takes the steps of one pass, and passes wider than one step at a time.
- The outside worker's interface, memory, notifications, projections, backups, tools and skills.
- Driver.Driver.Advance: bounds the passes of a run that is green, that no one else moves and that has no step in progress at the start; with yellow steps the bound is false, as the clause about a stuck run and the run in `RunExamples.SecondYellowClaimIsSwallowed` show.
- RunDraft.Draft.HoldStep: a hold kind other than a budget stop is treated as ungraded work, the two kinds the runtime itself writes.
- Workflows.FindCycles: a dependency field that is not a list is taken to have no edges; such a workflow is refused anyway.
- Intake.Desk.EnqueueTrigger: the row's time is read just before the transaction, so two inserts that swap order across the turn of a second are served in the order of insertion.
- Intake.Desk.StartQueued: one sweeper at a time, whose reading of the queue and look at what moves are one moment; what others do while it plans is covered.
- Limiter.DequeIsTheWindow: the window is longer than nothing, as its default of sixty seconds is.
- Names.MoveIsNotSwallowed: people and other tools name their requests differently from the driver's moves; the driver itself is shown to keep to its names.
