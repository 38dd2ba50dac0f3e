# Verification of the content agent's money paths

The service turns a brief into a priced plan, and a confirmed plan into a job that spends money on a
generation platform. This project models that path and proves what it promises: nothing is paid for twice,
the books balance, spending stays inside the envelope, a verdict that arrives late lands like one that
arrived in time, the planner's choice is optimal, and a replayed request is answered, not repeated.

Verify everything with `dafny verify dfyconfig.toml`.

## How it is put together

| file | what it holds |
|---|---|
| `Money`, `Domain`, `Order` | amounts, rounding and sums; plans, jobs, steps, payloads; ordered insertion |
| `Budget` | the guard: envelope, checks, commit and release |
| `Planner`, `Upgrade`, `PlanBuilder` | candidate ranking, the drop loop, the greedy upgrade, step assembly |
| `Wire`, `PlanCreation`, `Recheck` | an arbitrary platform behind a client; pricing, re-planning, the fail-closed recheck |
| `Platform` | the simulated platform: charges, replays, refunds |
| `Ledger`, `Settlement` | jobs table and step ledger; how verdicts, sweeps and callbacks rewrite a job |
| `Execution`, `Executor`, `JobRun` | one run as a function of what the wire answers; the imperative executor; claim, recheck or resume, run |
| `Endings`, `Booked` | every way a turn of the executor can end, on the fields; verdicts over whole runs |
| `Spending`, `Books`, `Admitted` | spend bound and balanced books, and both for a job from its recheck on |
| `Covered`, `Drift` | what the recheck promises about the run after it, exactly when the guard still stops it, and a plan it stops |
| `Reconciler`, `SweptBooks` | the sweep, and the books after it |
| `Shapes`, `Apartness`, `Late`, `Partings` | the shape of a run, two runs apart by one verdict, late against timely, and three runs where they part |
| `Protocol`, `Statements` | the protocol under concurrency and crashes, and what its statements do |
| `NeverTwice`, `Documents`, `Undisturbed` | what every interleaving keeps, and the executor's turns and runs as interleavings of it |
| `Recovery`, `Retry` | startup recovery and the job queue; the re-send loop |
| `ReplayKeys` | the `Idempotency-Key` of the service's own endpoints |

Money is an integer count of 1/10000 ruble, the precision to which every stored figure is rounded; the
simulated platform counts kopecks. A step's idempotency key is the tuple it is computed from, so it is
injective by construction; a request digest is represented by the body it digests. A run of a job is the
sequence of its states, one before each plan step and one at the end. A platform is any
`Wire`: a state machine that answers calls as it likes. Claims about every `Wire`, or about every list of
wire events, hold for every platform; `Books.MockWire` is the simulated one.

Code that changes things step by step is modelled by classes and loops (`BudgetGuard`, `MockClient`,
`JobRepository`, `Executor`, `Sweeper`, `PlanService`, `Store`, the planner's loops) whose `ensures` equate
the new state with a specification function. What the source promises is then proved about those
functions. `Protocol` is the exception: it is a transition system, one SQL statement or one message per
step, and allows every interleaving. Its workers use the executor's own functions for what a reply or a
verdict makes of document and ledger; a worker nobody disturbs takes exactly the executor's turns
(`Undisturbed.UndisturbedIsOneTurn`), and every run of the executor against the simulated platform is one
of the interleavings (`Undisturbed.RunIsAnInterleaving`).

## Findings

* A verdict found by the sweep leaves the steps, cost, errors and ledger of the same verdict seen by the executor
  if and only if the launch had given the step an id and the guard decides every later step of the late run as it
  would have with the verdict in hand (`Late.LateEqualsTimelyExactly`, `Late.SweepEqualsTimelyExactly`). Both are
  read off the late run: where no verdict names a negative cost, the second asks whether the money the verdict gives
  back, or takes on top, would have changed a decision of the guard (`Late.LateEqualsTimelyByShift`). So late equals
  timely for a step with an id whenever the verdict keeps the charged cost or nothing follows the step.
* A refund in mid-run is one case that fails: the executor hands the money back to the guard, the sweep only to the
  document, and a later step may have been skipped for want of it (`Partings.MidRunRefundMatters`). A launch without
  an id is the other: a long voiceover may be waited for without one, and the sweep then never lists its row
  (`Partings.NoIdIsNeverSwept`). The docstring of `apply_outcome` promises that a step settles identically whoever
  learns the outcome first; for the step itself that always holds (`Late.StepSettlesAlike`).
* Even where late equals timely the job status may differ, as the sweep judges a job as if it had never been aborted:
  the statuses differ if and only if the late run ended aborted and the verdict is a failure
  (`Late.StatusesAgree`; `Partings.AbortIsForgotten` is such a run).
* The 20-round cap of the upgrade loop never binds: the first round is optimal and the second finds nothing to
  change (`Upgrade.UpgradeGreedily`, `Upgrade.SecondRoundIsIdle`).
* The guard's tolerance of one millionth of a ruble never changes a comparison between stored amounts
  (`Budget.ToleranceIsInert`).
* A drop in price within one kopeck is not taken over by the recheck, so the price a launch is checked against
  can be up to one kopeck away from the last quote, in either direction (`Recheck.LaunchPricesTrackQuotes`).
* A plan the recheck lets through can still be stopped half-way by the guard. The recheck compares the sum of the new
  quotes with the envelope, but a step keeps its planned price if the quote is within a kopeck of it, and the guard
  checks that price beside what was really charged: a kopeck up on one step and a kopeck down on the next are enough
  (`Drift.DriftStopsThePlan`). Against the simulated platform nothing but the guard stops an admitted plan
  (`Covered.StoppedExactlyByTheGuard`), and it stops none whose steps are planned at most at their new quotes
  (`Covered.AdmittedRunIsCarriedOut`).
* A callback that names no cost settles its step at nothing, where executor and sweep would settle it at the charge;
  and a refunded success at nothing, where they take the cost it names (`Settlement.CallbackAgreesExactly`). A callback
  in any state other than success, one still at work included, fails its step.
* A callback for a step that already succeeded leaves the document alone but rewrites the ledger row, so the two part
  unless it repeats the success at the same cost (`Ledger.CallbackAgreesWithRow`).

## Model

| member | source | states |
|---|---|---|
| Money.RoundHalfEven | app/services/budget.py:33-49 | the rounding of every stored figure: nearest, ties to even |
| Money.RoundingIsUnique | app/services/budget.py:33-49 | those two conditions determine the rounded value |
| Budget.ToleranceIsInert | app/services/budget.py:15-66 | the epsilon never changes the outcome of a comparison between stored amounts |
| Budget.EnvelopeIsProper | app/services/budget.py:33-40 | for a positive budget and a margin below one half, the spendable sum is positive and at most the budget, and what is held back is the margin's share of it to the nearest unit |
| Budget.Check | app/services/budget.py:54-67 | passes exactly when the cost is not negative and fits both the ceiling and the envelope after what is committed |
| Budget.CheckAccount | app/services/budget.py:82-106 | passes exactly when the balance is known and covers the cost, and a known daily limit covers a positive cost on top of what was spent today |
| Budget.RefusalsMean | app/services/budget.py:54-110 | the full check passes exactly when cost and commitment fit ceiling and envelope and the account can pay; otherwise it names the first thing in the way |
| Budget.CommittedIsOutstanding | app/services/budget.py:69-79 | over every sequence of commits and releases, the commitment is the sum of what is outstanding, stays inside the envelope, and the clamp at zero never bites |
| Budget.BudgetGuard.Commit | app/services/budget.py:69-74 | commits the cost when the check passes; otherwise refuses with the check's reason and changes nothing |
| Budget.BudgetGuard.Release | app/services/budget.py:76-79 | gives the cost back, clamped at zero |
| Platform.ChargeOf | app/clients/mock.py:206-209 | a fixed-price model pays its price; a token-billed charge is 60% of its reserve to the nearest kopeck, and never above it |
| Platform.PlatformConserves | app/clients/mock.py:195-388 | over every sequence of calls: balance is the opening balance less the charges not refunded, never negative; the day's spend mirrors it and keeps its limit |
| Platform.RefundedAtMostOnce | app/clients/mock.py:306-388 | over every sequence of calls each record is paid back at most once, and only if it failed |
| Platform.ReplayIsFree | app/clients/mock.py:199-202 | re-sending an accepted launch returns the identical reply and changes nothing, whatever calls came between |
| Platform.MockClient.Launch | app/clients/mock.py:195-288 | the stateful `generate` is the state function the conservation and replay claims are about |
| Platform.MockClient.PollGeneration | app/clients/mock.py:338-388 | the same for `generation_status` |
| Platform.MockClient.PollVoiceover | app/clients/mock.py:306-336 | the same for `voiceover_status` |
| Planner.PrefersIsTransitive | app/services/planner.py:236-240 | with `PrefersIsStrict`: the preference key is a strict total order on candidates with different keys |
| Planner.PrefersIsStrict | app/services/planner.py:236-240 | the preference key is asymmetric and decides between any two different keys |
| Planner.Ranking | app/services/planner.py:219-234 | the candidates of a format are distinct and sorted by preference (read off the fields in `Planner.RankingReadsAs`) |
| Planner.RankingReadsAs | app/services/planner.py:219-240 | down a ranking tiers go up; inside a tier prices go up, or down when quality is asked for; names decide the rest |
| Planner.RankingIsExact | app/services/planner.py:178-234 | every candidate is a usable model of the catalogue, at the price confirmed for it or else the catalogue's; and a usable model is a candidate if and only if it is priced, or no usable one is |
| Planner.Analyse | app/services/planner.py:166-234 | the loop over the catalogue computes exactly that ranking |
| Planner.PickCheapest | app/services/planner.py:414-419 | no candidate costs less than the one picked; among equals it has the best tier, and then the first name |
| Planner.DropIsMinimal | app/services/planner.py:424-433 | the drop loop keeps what fits; everything dropped ranks below everything kept, and would not fit together with what ranks above it |
| PlanBuilder.DroppedRankBelow | app/services/planner.py:425-428 | a format that is dropped has a larger priority number than any that is kept, or the same and a name further down the alphabet |
| Planner.KeepsLongestPrefix | app/services/planner.py:411-433 | what is kept is the longest prefix of the priority order whose cheapest models fit together |
| Upgrade.UpgradeIsOptimal | app/services/planner.py:438-454 | one round is the lexicographically best vector of preferences, in priority order, among all one-model-per-format choices that fit, and itself fits |
| Upgrade.UpgradeCostsMore | app/services/planner.py:415-449 | a model preferred over the baseline costs strictly more |
| Upgrade.PassIsFixed | app/services/planner.py:440-454 | a second round returns the selection it was given |
| Upgrade.SecondRoundIsIdle | app/services/planner.py:440-454 | no single format moves in the second round |
| Upgrade.UpgradeRound | app/services/planner.py:441-451 | one iteration of the loop is that round; the changed flag is set only for a format that moved |
| Upgrade.UpgradeGreedily | app/services/planner.py:438-454 | the whole loop returns the result of its first round and stops after at most two |
| PlanBuilder.DropUntilFits | app/services/planner.py:423-433 | the loop computes the specified drop and lists what it gave up: every missing format and no other, lowest priority first, all below everything kept |
| PlanBuilder.FitToBudget | app/services/planner.py:403-456 | baseline, drop and upgrade together: the selection fits, keeps what the drop keeps, and no affordable choice for the kept formats ranks above it (or it is the baseline, for the cheapest strategy) |
| PlanBuilder.EnsureText | app/services/planner.py:145-162 | a requested text format is always present, at no cost, and the priority order is kept |
| PlanBuilder.RankAllIsExact | app/services/planner.py:116-130 | exactly the requested formats with a usable model are analysed, each with its ranking |
| PlanBuilder.DraftIsSound | app/services/planner.py:97-163 | every draft orders a selection choice by choice, model, parameters and price, and nothing else but the copy, which is composed exactly if asked for and no text model was chosen; every billable step orders a usable model of its format from the catalogue |
| PlanBuilder.Build | app/services/planner.py:97-163 | the draft orders, step by step, the models selected for the ranked formats, with their parameters and prices, out of what the catalogue offers, and the copy where it belongs: one step per format at most, ids and keys as derived, within the spendable sum, in priority order |
| PlanCreation.PriceSteps | app/services/plan_service.py:268-327 | the pricing loop computes the specified pricing of the steps (what that is: `PlanCreation.PricedExactlyIfConfirmed`) |
| PlanCreation.PricedExactlyIfConfirmed | app/services/plan_service.py:268-327 | a billable step survives pricing exactly if the platform, asked by its format, model and parameters, finds it valid and names a price, and then carries that price: the fixed one, or else current balance less what is left after the reserve |
| PlanCreation.PricingKeepsShape | app/services/plan_service.py:268-327 | whatever the platform answers, pricing removes billable steps and changes prices, and keeps every local step |
| PlanCreation.DropUntilAffordable | app/services/plan_service.py:376-396 | every billable step kept has at most the priority number of every step given up, and at most its price if the numbers are equal; nothing local is given up; what is left fits or is all local; the loop counts what it removed |
| PlanCreation.DropLoopFits | app/services/plan_service.py:376-396 | what is left fits the spendable sum, has every local step, gave up the lowest priorities, and with one given-up step more would not fit |
| PlanCreation.KeepsTopOfTheOrder | app/services/plan_service.py:376-396 | where every format has its own priority, the billable steps kept are the longest run from the top of the priority order whose confirmed prices fit |
| PlanCreation.PlanKeepsTopOfTheOrder | app/services/plan_service.py:159-174 | so a created plan orders that run of the priced steps |
| PlanCreation.ReplanWithExactPrices | app/services/plan_service.py:329-374 | nothing is asked if the priced steps fit; otherwise a draft made with the confirmed prices is priced and taken exactly when it fits and loses no billable step |
| PlanCreation.RedraftKeepsConfirmedPrices | app/services/plan_service.py:348-358 | a step drawn up again for a model whose price was just confirmed is planned at that price |
| PlanCreation.FinalSteps | app/services/plan_service.py:159-174 | the drop loop, then the copy if it is still missing: fits the spendable sum, and reports a drop exactly when there was one |
| PlanCreation.PlannedPricesAreConfirmed | app/services/plan_service.py:268-327 | every billable step of a created plan is a draft step at the price the platform named for that very request |
| PlanCreation.PlannedStepsAreSold | app/services/planner.py:459-520 | every billable step of a created plan orders a usable model of its format from the catalogue, with that model's parameters |
| PlanCreation.PlanStatusMeans | app/services/plan_service.py:183-190 | a plan is ready exactly if it has a step for every requested format, its draft dropped none and nothing priced was given up; infeasible exactly if it is empty |
| PlanCreation.CreatePlan | app/services/plan_service.py:130-218 | for every brief, catalogue and sequence of replies the plan is what draft, pricing, re-plan, drop loop and last chance make of it; its total is within the spendable sum within the budget, it has at most one step per format with derived ids and a requested text; nothing is launched; refused exactly above the service's ceiling |
| WireModel.UnknownStaysUnknown | app/services/plan_service.py:398-424 | the balance is `/me`'s, or else `/balance`'s, and unknown exactly when neither gave it; limit and spending are `/me`'s and never made up |
| WireModel.Client.AccountSnapshot | app/services/plan_service.py:398-424 | the two calls compute that snapshot |
| Recheck.RecheckIsExact | app/services/plan_service.py:568-645 | no blocker if and only if every billable step is acceptable and the sum of the new prices fits the envelope, a known balance, and the day on top of what was spent |
| Recheck.AcceptableMeans | app/services/plan_service.py:576-618 | acceptable means: the platform answered, found the request valid and within the day, and named a price at most one kopeck above plan |
| Recheck.LastEchoCounts | app/services/plan_service.py:700-712 | the account the recheck goes by holds, of balance, limit and spending, the value an acceptable reply named last, or what was known before |
| Recheck.EveryObjectionIsRaised | app/services/plan_service.py:576-618 | every step that is not acceptable is among the blockers, with the first reason against it |
| Recheck.TotalBlockersMean | app/services/plan_service.py:622-645 | each blocker on the sum is raised exactly when its comparison fails |
| Recheck.RecheckOnlyLowers | app/services/plan_service.py:601-620 | the recheck lowers planned prices and changes nothing else in the plan |
| Recheck.LaunchPricesTrackQuotes | app/services/plan_service.py:609-620 | a step's price at launch is within one kopeck of what was just quoted |
| Recheck.RecheckPrices | app/services/plan_service.py:568-645 | the loop, with its merges into the guard's account, computes that recheck |
| JobRun.AdmittedPlanIsFresh | app/services/plan_service.py:459-465 | a well-formed plan no row was claimed for, admitted as a new job, is a fresh run in the sense of the spending claims; the job mirrors the plan step by step |
| JobRun.RecheckedPlanIsFresh | app/services/plan_service.py:529-536 | the recheck keeps a fresh run fresh |
| JobRun.AbortSpendsNothing | app/services/plan_service.py:552-566 | a stopped job is aborted, keeps its cost and every step's, skips exactly the pending steps, and lists every blocker |
| JobRun.PlanService.AbortJob | app/services/plan_service.py:552-566 | the loop computes the stopped job and stores it |
| JobRun.PlanService.RunJob | app/services/plan_service.py:492-550 | only whoever flips a queued job runs it; without a launch behind it, any blocker stops it with nothing launched and no ledger row changed; otherwise the executor's run follows, resumed with what was already paid |
| Ledger.JobRepository.Save | app/repositories/jobs.py:54-70 | stores any document under its id; the tables stay balanced if the document is |
| Ledger.JobRepository.ClaimForExecution | app/repositories/jobs.py:83-107 | succeeds exactly on a queued job and flips it to running |
| Ledger.JobRepository.Requeue | app/repositories/jobs.py:109-119 | puts an existing job back to queued |
| Ledger.JobRepository.UnfinishedJobs | app/repositories/jobs.py:121-127 | exactly the queued and running jobs, each once, oldest first |
| Ledger.JobRepository.Claim | app/repositories/jobs.py:141-189 | reserves a step once; a repeat gets the existing row, and is refused if key or body differ, or the key is in use elsewhere; only a new row is stamped with the time |
| Ledger.JobRepository.Update | app/repositories/jobs.py:223-249 | status is set; id and cost only when given; a missing row stays missing |
| Ledger.JobRepository.FindByGeneration | app/repositories/jobs.py:129-138 | finds a row with this id if there is one |
| Ledger.JobRepository.Webhook | app/api/routers/webhooks.py:71-85 | where ids are unique, a step is matched exactly if some row of a stored job carries the id; unless it had succeeded it is then succeeded if and only if the payload says so, at the cost named or 0, and so is its row; otherwise nothing changes |
| Settlement.CallbackMeans | app/api/routers/webhooks.py:94-125 | the callback's effect on the document, on the payload's fields: status, cost, refund mark, addresses, error |
| Settlement.CallbackAgreesExactly | app/api/routers/webhooks.py:94-118 | callback and executor give a step the same status, and the same cost exactly if the payload names one and the money is not back, or a failure was refunded, or nothing is at stake |
| Ledger.CallbackAgreesWithRow | app/api/routers/webhooks.py:71-85 | after a callback document and row agree exactly if the step had not succeeded before, or the callback is a success at the cost it has |
| Settlement.VerdictMeans | app/services/executor.py:397-423 | a success settles at the cost it names or else at the charge, a failure likewise unless refunded, then at 0; what the verdict brings is taken over, everything else stays |
| Settlement.AggregateMeans | app/services/executor.py:437-448 | with nothing outstanding: succeeded exactly when every step did, aborted exactly when aborted without a success, failed exactly when nothing succeeded, partial otherwise |
| Settlement.ErrorsLeft | app/services/reconciler.py:150-153 | exactly the errors of other steps survive a rewrite |
| Settlement.WebhookIsIdempotent | app/api/routers/webhooks.py:106-125 | redelivering a callback changes the document no further |
| Settlement.WebhookIsSafe | app/api/routers/webhooks.py:106-125 | a callback keeps the books, leaves a succeeded step and all other steps alone, and concludes a job only if nothing is outstanding |
| Execution.HistoryIsRun | app/services/executor.py:58-135 | a complete history against any platform is a run on the events that platform produced |
| Execution.PollWaits | app/services/executor.py:254-271 | every read of a wait but the last found the work going on with time left; the last brought the verdict or the error, or found no more and the time used up |
| Executor.Executor.Await | app/services/executor.py:254-271 | polling yields the first verdict or error, or gives up when the budget is spent (`Execution.PollWaits`) |
| Executor.Executor.SettleStep | app/services/executor.py:301-326 | step, errors, commitment and ledger row after a verdict: the figure of `Settlement.VerdictMeans`, on all of them (`Endings.VerdictIsWrittenDown`) |
| Executor.Executor.RunStep | app/services/executor.py:138-235 | one step refines the specification: claim, resume or check, launch at most once, record, wait, settle |
| Executor.Executor.LaunchStep | app/services/executor.py:189-235 | launch, record, commit or stop over an overcharge, then wait or settle |
| Executor.Executor.ConcludeStep | app/services/executor.py:92-118 | the handlers around a step; the document is stored with its running total |
| Executor.Executor.Run | app/services/executor.py:58-135 | job document, guard, ledger and launches after the loop are those of the specified run, and every document stored on the way adds up |
| Endings.VerdictIsWrittenDown | app/services/executor.py:301-326 | a verdict, waited for or immediate, leaves step, row and commitment at one figure: what it names, else the charge, and 0 for a refunded failure; the step has the id the launch gave, and failed or succeeded as the platform says |
| Booked.VerdictIsBooked | app/services/executor.py:58-135 | the same at every step of every fresh run, on every list of wire events |
| Booked.DrivenVerdictIsBooked | app/services/executor.py:58-135 | and of every run driven by any platform |
| Endings.StepIsPassedOver | app/services/executor.py:64-73 | behind an abort a step is marked skipped; a finished or unknown step is left alone; nothing else moves |
| Endings.LocalStepIsFree | app/services/executor.py:150-161 | a local step succeeds with the plan's output, for nothing |
| Endings.ForeignClaimRefuses | app/services/executor.py:163-170 | where the ledger holds the step under another key or body, or its key under another step, nothing is launched and no row written |
| Endings.ResumedIsOnlyWaitedFor | app/services/executor.py:172-178 | a step whose launch the ledger knows is never launched again; it is waited for by that id and ends by what the wait brings |
| Endings.UnaffordableStops | app/services/executor.py:93-100 | a step the guard does not let pass is skipped, nothing is launched or charged, and the plan stops |
| Endings.RefusedLaunchCostsNothing | app/services/executor.py:101-113 | a refused launch fails its step and its row at no cost; the plan stops exactly if balance or day are exhausted |
| Endings.OverchargeStops | app/services/executor.py:209-218 | a charge above what is left is written down as it is, on step, row and guard, and the plan stops |
| Endings.TimeoutLeavesItRunning | app/services/executor.py:281-297 | a wait without an end fails the step at its charge; its row stays running with id and charge |
| Endings.ErrorClosesTheRow | app/services/executor.py:101-113 | an error while waiting fails the step at its charge and closes its row |
| Endings.NoIdFails | app/services/executor.py:224-233 | a reply with neither id nor result fails the step at its charge |
| Endings.NoOtherEnd | app/services/executor.py:64-118 | every turn ends in one of these ways |
| Spending.SpendStaysBounded | app/services/executor.py:179-218 | on every platform with fair answers: every launch fits the envelope beforehand, no step is launched twice, an overcharge that breaks the envelope is the last launch and exceeds it by at most its own surplus over plan |
| Spending.EveryLaunchIsChecked | app/services/executor.py:177-189 | on every run, fresh or resumed, and on every platform, each launch was one of the plan's steps, with its model, parameters, key and price, and fitted ceiling, envelope, balance and day when it was made |
| Spending.TurnChecks | app/services/executor.py:63-74 | a turn launches nothing, or its own step within what may be spent beside all that is committed, and nothing once the run is aborted |
| Spending.InternalBooksAgree | app/services/executor.py:58-135 | after a fresh run the guard, the job document and the ledger name one sum, and no step is outstanding |
| Books.WaitingIsHonest | app/clients/mock.py:306-388 | waiting for a paid record ends in no verdict and no movement, or in a verdict that reports what the account was left with |
| Books.MockWaitEnds | app/clients/mock.py:306-388 | waiting for a record brings its verdict, money back for a failure and the cost for a success, unless the reads still to come take longer than there is time; then it times out |
| Books.LaunchLeavesRecord | app/clients/mock.py:227-288 | an accepted launch leaves a record of what was charged, failing exactly if the provider will, and takes that from balance and day |
| Books.CheckedLaunchIsAccepted | app/services/budget.py:82-106 | against a snapshot just read, the account check passes a launch exactly if the simulated platform accepts it, the day not being overspent already, and refuses for the balance exactly when it would |
| Books.EstimateIsTheReserve | app/clients/mock.py:165-193 | an estimate names the reserve, echoes the account, and says truly whether the day has room |
| Books.StepIsHonest | app/services/executor.py:138-326 | one step moves the account and the commitment by the same amount |
| Books.BooksBalance | app/services/executor.py:58-135 | after an uninterrupted run of a fresh plan the drop of the balance, the commitment, the job's cost and the ledger's sum are one figure |
| SweptBooks.TurnLeaves | app/services/executor.py:138-326 | what a turn leaves running in the ledger is a record the platform still holds unrefunded at the step's cost, and no earlier record moved |
| SweptBooks.BooksBalanceAfterSweep | app/services/reconciler.py:66-164 | after a fresh run and a later sweep, in any order and with any verdicts, the drop of the balance since the start, the job's cost and the ledger's sum are one figure |
| Admitted.AdmittedRunIsBounded | app/services/plan_service.py:492-550 | a created plan, admitted once and let through by the recheck, runs to its end on every platform with fair answers: every launch checked, at most at its planned price, spending bounded, guard, document and ledger in agreement |
| Admitted.AdmittedRunBalances | app/services/plan_service.py:492-550 | against the simulated platform, with nothing assumed of the answers, the drop of the balance agrees with them too |
| Covered.RecheckCovers | app/services/plan_service.py:568-645 | a recheck without blockers has made sure that the plan's reserves fit the envelope, the balance and the day, all together |
| Covered.AdmittedRunIsNeverRefused | app/services/plan_service.py:492-550 | against the simulated platform, prices depending on format, model and parameters, the launch of every billable step of an admitted plan is accepted when its turn comes, whatever came before |
| Covered.StoppedExactlyByTheGuard | app/services/executor.py:58-135 | so an admitted plan is stopped if and only if the guard does not let a step pass when its turn comes; if none is stopped every step is carried out |
| Covered.AdmittedRunIsCarriedOut | app/services/plan_service.py:609-620 | in particular where no step is planned above what is asked for it now |
| Drift.DriftStopsThePlan | app/services/plan_service.py:602-618 | a concrete plan, priced as planned in sum, that the recheck lets through unchanged and the guard stops half-way, over one kopeck |
| Shapes.RunHasShape | app/services/executor.py:58-135 | at every point of a run: finished steps are settled, later steps untouched, and an abort implies a step that did not succeed |
| Apartness.ApartStep | app/services/executor.py:58-118 | two runs that differ only in an earlier verdict take the same turn on a later step if the guard decides alike |
| Apartness.DisagreeParts | app/services/executor.py:177-218 | where the guard decides differently they part, in the document or in the ledger |
| Late.StepSettlesAlike | app/services/executor.py:397-423 | a step given up on and settled later ends as if settled at once |
| Late.LeftBehindIsListed | app/repositories/jobs.py:191-214 | once old enough, the row of a step given up on is stale, and its step found, exactly if the launch gave an id |
| Late.LateEqualsTimelyExactly | app/services/reconciler.py:84-164 | timeout and a later look by the sweep against verdict in time: same steps, cost, error set and ledger if and only if the step has an id and the guard decides every later step of the late run as it would have with the verdict in hand |
| Late.SweepEqualsTimelyExactly | app/services/reconciler.py:66-164 | the same for a whole sweep over all stale rows in any order, no other step of the plan being stale |
| Late.LateEqualsTimely | app/services/reconciler.py:84-164 | in particular, with an id, if the verdict keeps the charged cost, or the step is the last |
| Late.LateEqualsTimelyByShift | app/services/executor.py:315-319 | with no negative costs, the condition on the guard is that the difference between charge and verdict would not change a decision |
| Late.StatusesAgree | app/services/reconciler.py:161-164 | the job's status agrees too, except exactly where the late run ended aborted and the verdict is a failure |
| Partings.MidRunRefundMatters | app/services/executor.py:301-326 | a concrete run in which a refund in mid-run, found late, leaves a later step skipped that the timely verdict would have paid for |
| Partings.AbortIsForgotten | app/services/reconciler.py:161-164 | a concrete run that lands as in time but is called failed where it would have been aborted |
| Partings.NoIdIsNeverSwept | app/services/reconciler.py:84-91 | a concrete long voiceover without an id that no sweep ever lists or settles |
| Reconciler.ReconciledKeeps | app/services/reconciler.py:148-164 | a rewrite keeps the books, the other steps and a terminal status |
| Reconciler.ReconcileWritesExactly | app/services/reconciler.py:84-146 | on every platform, looking at a record leaves tables and count as they were exactly if its step cannot be asked about, the work goes on, or the error is not a 404; after a 404 the step has failed at its charge, after a verdict it settles at its figure, in document, errors and row |
| Reconciler.OutageSettlesNothing | app/services/reconciler.py:66-82 | a sweep while the platform is down or busy leaves everything to be asked about again |
| Reconciler.RewriteSettles | app/services/reconciler.py:84-121 | settling a stale row removes exactly it from the stale set and reopens no ended job |
| Reconciler.SweepSettles | app/services/reconciler.py:66-82 | the stale set shrinks by exactly the number settled; ended jobs stay ended, running jobs untouched, documents add up |
| Reconciler.SweepIsThorough | app/services/reconciler.py:66-82 | what a sweep leaves stale cannot be settled under the same answers |
| Reconciler.SecondSweepIsIdle | app/services/reconciler.py:66-82 | an immediate second sweep settles and writes nothing, whatever the order of records |
| Reconciler.SweepOfOneRow | app/services/reconciler.py:66-82 | a sweep does to a plan with one stale row what reconciling that row alone does, and nothing to a plan without one |
| Reconciler.Sweeper.StaleSteps | app/repositories/jobs.py:191-214 | exactly the running rows with an id, not written since the cut-off, of jobs that have ended, each once, longest untouched first |
| Reconciler.Sweeper.SettleRecord | app/services/reconciler.py:84-146 | one record: settled exactly if its step can be asked about and the answer is a verdict or a 404, and then document and row say what it says; anything else writes nothing |
| Reconciler.Sweeper.Sweep | app/services/reconciler.py:66-82 | the loop is the specified sweep, launches nothing, and returns the number by which the stale set shrank |
| NeverTwice.NeverPaidTwice | app/services/executor.py:163-208 | over every interleaving of workers, jobs of one plan, crashes, restarts, lost, late and duplicated messages, callbacks and sweeps, each step of each plan is charged at most once |
| NeverTwice.EveryChargeIsLogged | app/clients/mock.py:195-288 | the list of charges is complete: one platform record per charge, and the account lost exactly their cost less refunds |
| NeverTwice.ChargesAreClaimed | app/repositories/jobs.py:141-189 | whatever was charged is in the ledger under the key that was paid |
| NeverTwice.LedgerIdsAreThePlatforms | app/repositories/jobs.py:223-249 | in every reachable state a row's generation id is the platform's under the row's key, and no two rows share one |
| NeverTwice.LedgerIdsAreUnique | app/repositories/jobs.py:129-138 | so a callback's id leads to one ledger row only |
| NeverTwice.LedgerIdsNeverChange | app/repositories/jobs.py:223-249 | a row never loses its key, body, job or generation id, whoever writes |
| NeverTwice.OneWorkerPerJob | app/repositories/jobs.py:83-119 | at most one live worker is past the claim of a job, however often its id is delivered |
| Statements.ClaimMeans | app/repositories/jobs.py:83-107 | the protocol's claim: a free worker takes a queued job that is not awaiting recovery, and only that |
| Statements.ServeMeans | app/clients/mock.py:195-203 | a message in the network may be served at any time and again, and the platform answers as it does |
| Statements.CrashMeans | app/main.py:34-47 | a crash takes every worker and nothing stored or under way |
| Statements.RequeueMeans | app/repositories/jobs.py:109-119 | recovery puts a job that was queued or running back in line, once |
| Statements.WebhookMeans | app/api/routers/webhooks.py:71-85 | a callback does to the document what the repository's handler does, whoever is at work |
| Statements.WebhookWritesTheRow | app/api/routers/webhooks.py:79-85 | and to the ledger row |
| Statements.ReconcileMeans | app/services/reconciler.py:84-121 | a sweep that hears a verdict writes it down, for a running row of an ended job |
| Statements.ReconcileIsRestrained | app/repositories/jobs.py:191-214 | and touches nothing else |
| Statements.StopMeans | app/services/plan_service.py:552-566 | a job stopped before the first ruble ends aborted with nothing pending, and its worker leaves |
| Documents.EveryDocumentAddsUp | app/services/executor.py:114-123 | in every interleaving, every job document ever stored by executor, abort, callback, sweep or recovery, with or without steps skipped after a budget stop, costs what its steps cost |
| Undisturbed.UndisturbedIsOneTurn | app/services/executor.py:62-118 | the protocol's statements for one turn of the loop, with nobody in between, leave the document, ledger and platform of the executor's turn: local or billable, fresh or resumed, refused, unaffordable, rejected, overcharged, settled, timed out, failed or skipped |
| Undisturbed.RunIsAnInterleaving | app/services/executor.py:58-135 | every run of the executor against the simulated platform is an interleaving of the protocol, ending in the same ledger, platform and final document |
| NeverTwice.SkipKeeps | app/services/executor.py:67-70 | passing over a step behind a budget stop keeps every invariant |
| NeverTwice.ServeKeeps | app/clients/mock.py:195-203 | serving a launch late or again keeps every invariant: a key that was served is not charged again |
| NeverTwice.RecordKeeps | app/services/executor.py:189-208 | writing a reply down keeps every invariant: the recorded id is the platform's |
| NeverTwice.ClaimKeeps | app/services/plan_service.py:492-508 | the conditional update keeps the job lock |
| NeverTwice.WebhookKeeps | app/api/routers/webhooks.py:71-85 | a callback keeps every invariant |
| NeverTwice.ReconcileKeeps | app/services/reconciler.py:84-121 | a sweep's rewrite keeps every invariant |
| NeverTwice.RequeueKeeps | app/main.py:34-47 | startup recovery keeps every invariant, the job lock included |
| Recovery.RecoverUnfinished | app/main.py:34-47 | every queued or running job is queued again and delivered exactly once, the oldest first; all others are left alone |
| Recovery.JobQueue.Enqueue | app/services/job_queue.py:55-57 | ids are delivered in the order they arrive |
| Recovery.JobQueue.Take | app/services/job_queue.py:77-80 | a free worker gets the oldest id |
| Retry.DelayIsBounded | app/clients/retry.py:37-45 | a wait is never negative nor longer than the cap stretched by the jitter; the server's own wish is honoured up to the cap |
| Retry.BackoffDoubles | app/clients/retry.py:37-45 | left to itself the wait doubles from one attempt to the next, up to the cap |
| Retry.JitterIsBounded | app/clients/retry.py:37-45 | and strays from that by the jitter's share at most |
| Retry.WithRetry | app/clients/retry.py:48-70 | every attempt but the last failed for want of a connection, with 429 or with a fault on the other side; the last succeeded, failed otherwise, or was the last allowed |
| Retry.AttemptsChargeOnce | app/clients/retry.py:48-70 | over any pattern of lost requests and replies the platform is untouched or in the state of one launch, and an accepted reply is that launch's |
| Retry.LaunchWithRetry | app/clients/retry.py:48-70 | a launch under retry is charged at most once and never misreported |
| ReplayKeys.Store.Claim | app/repositories/idempotency.py:34-50 | reserves an unused key; otherwise returns the row that owns it |
| ReplayKeys.Store.Complete | app/repositories/idempotency.py:56-66 | stores the answer under the key |
| ReplayKeys.Store.Release | app/repositories/idempotency.py:83-90 | drops a claim, never an answer |
| ReplayKeys.Store.PurgeOlderThan | app/repositories/idempotency.py:68-77 | drops exactly the answered keys created before the cut-off, keeps every other row as it is, and counts |
| ReplayKeys.Store.WithIdempotency | app/api/idempotency.py:41-95 | one undisturbed request: produces at most once per key, replays the stored answer, refuses a different or unfinished one, and a failure leaves no trace |
| ReplayKeys.AnyInterleaving | app/api/idempotency.py:41-95 | under any interleaving the store follows the life of every key (absent, claimed, answered, purged) and no two requests produce for one key at once |
| ReplayKeys.ArrivalMeans | app/api/idempotency.py:56-95 | under any interleaving, whoever arrives under a key nobody holds produces; whoever comes later is told the stored answer, that it is being worked on, or that the key is another request's |
| ReplayKeys.FinishMeans | app/api/idempotency.py:69-74 | who produces holds the key's claim, and finishing stores the answer under it |
| ReplayKeys.PurgeMeans | app/repositories/idempotency.py:68-77 | retention drops exactly the answered keys past their time |
| ReplayKeys.RefusalFreesTheKey | app/api/idempotency.py:61-67 | after a refused attempt the next request with the key produces |
| ReplayKeys.PurgeKeepsClaims | app/repositories/idempotency.py:68-77 | retention never drops a claim somebody is working on |
| ReplayKeys.StoredOnce | app/api/idempotency.py:61-74 | between purges at most one answer is stored per key, and nobody starts producing for a key that has one |
| ReplayKeys.ReplayIsTheStoredAnswer | app/api/idempotency.py:77-95 | every replay is the answer stored under its key, not purged since |

## Left out

- Binary floating point: amounts are exact multiples of 1/10000 ruble, rounded half to even where the source rounds; the representation error of a binary float and sums before rounding are not modelled.
- Warning and event texts, task ids, durations and every timestamp other than a job's creation, a ledger row's last write and the age cut-offs of the sweep and of retention; job errors are records (step, reason) instead of strings, so the sweep's prefix match on error strings is a match on the step.
- Catalogue parsing, price bounds, parameter building and coercion, prompts: the planner is fed each model's key, tier, eligibility, parameters and optional price; whether a body is accepted, what it costs and whether its provider fails are parameters of the simulated platform, and the result addresses in its replies are dropped.
- HTTP, signatures, schemas, settings, the user interface, tracing and metrics; media upload and its retention.
- SQL and JSON mechanics: a table is a map and a statement is one atomic step; the webhook handler and one reconciled record are atomic, as the lost update between a handler's read and its write is not modelled.
- The digest of a body and the derivation of keys by hashing: taken as injective.
- Admission of a plan over HTTP (`execute_plan`): the look-up of an earlier job and the save of a new one are separate awaits, so one job per plan is not claimed; `Protocol` allows any number of jobs per plan instead.
- A client without a voiceover endpoint, and a client with its own waiting method; the wait is the polling loop both fall back to.
- A database integrity error at a ledger insert and a refused key or body are one outcome, `Refused`: both leave the run with the step's document saved.
- Reconciler.SecondSweepIsIdle: is stated for platforms whose answer to a status read does not change between the two sweeps; under changing answers a second sweep may of course settle more.
- Late.SweepEqualsTimelyExactly: compares one plan's documents and rows, with one of its steps left behind; with several, each look at one row is covered by `Late.LateEqualsTimelyExactly`. The late run itself is fresh, as for all claims about late and timely.
- SweptBooks.BooksBalanceAfterSweep: speaks of a sweep that finds stale rows of this job only, because the account is shared and other jobs' refunds move it too.
- Undisturbed.RunIsAnInterleaving: is about the simulated platform, the only one the protocol knows; other platforms are covered by the claims about every `Wire`.
- Spending.SpendStaysBounded: assumes charges that are not negative and verdicts that do not raise a cost; the source checks neither.
- Covered.AdmittedRunIsNeverRefused: is about the simulated platform, with prices that do not depend on the key, and about one run at a time: another job on the same account may spend in between, and then the platform may refuse.
- PlanCreation.PlanKeepsTopOfTheOrder: is stated for priorities that differ; with equal ones `PlanCreation.DropUntilAffordable` says which steps go.
- Liveness: the transition system has no fairness, so nothing is claimed about jobs eventually ending.
- The document's cost against the platform after a kill between a launch and the next save: the document is stored only after a step, so only the ledger's key is claimed to survive, not the cost.
