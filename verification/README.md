# Verification model of the research-expense back office

This project models, in Dafny, the parts of the back office that decide about money: the matching of
card statements to expenses, the life of an expense from draft to locked report with its job queue,
workers, approvals, budgets and reports, the rule catalogue, the cache of vendor statuses, and the
checksum of Korean business numbers. It proves what these parts promise, for all inputs and all runs.
`dafny verify dfyconfig.toml` checks everything.

## How it is built

**Matching** (`Matching`, `MatchingTheory`, `MatcherProperties`, `MatcherOrder`, `Matcher`). `Matching`
is the specification: each of the three tiers scans all expenses in input order, sorts the pending pairs
stably by gap and row number, and settles them greedily. `Matcher` is the algorithm as written: result
objects updated in place, three hash indexes, a shared used set, nested loops; `MatchLines` is proved
equal to the specification. The theory and the properties are about the specification. Dates are day
numbers and amounts integers; an absent and an empty business number are different values, as in the
code.

**Workflow** (`Workflow`). The committed database is one value: projects with their budgets, expenses,
runs, stored rule results, decisions, reports, the open approval transactions with their row locks, and
the workers with their program counters. Every segment from commit to commit is an action. An approval
is cut at its lock points (lock the expense, read the results, lock the budget, sum, commit or abort),
a pipeline at its gate, its two reads and its result commit, and a worker can fail or die between any
two of its steps, so every interleaving is a run. Two fields are history and not data: the runs whose
worker failed or died after the pipeline had returned but before the run was marked finished, and the
rule context behind each stored result set. `Effects` says once what a step can do to each table; the
invariants follow it: `QueueInvariants`, `QueueKeys`, `QueueProgress`, `Locks`, `Handover`,
`LostExpenses`, `Validation`, `CleanRuns`, `Approvals`, `BudgetSafety`, `Duplicates`, `Reports`.
`Reachable` joins them and states the theorems over every run from the empty database; `Scenarios`
holds the runs that break a documented promise.

**Services** (`Services`, `Pipeline`). The functions as written: a `Database` object whose tables the
methods change in place, with their branches and error cases. Each call is proved to take the database
through steps of the workflow, so the theorems about runs hold of calls.

**Companions.** `Rules` (the fifteen rules as one function of a frozen context), `Ledger` and `Calendar`
(SQL sums and counts, month ranges, the monthly summary), `Badges` (the batch query behind the risk
badges), `VendorCache`, `BizNo`, `Keys` (idempotency keys as printed text).

## Where the code and its documentation disagree

The model follows the code. Each point is a proved member, named in brackets.

- The worker promises that a run out of attempts always moves its expense to NEEDS_REVIEW
  (backend/app/worker.py:6-10). Two steps break this, and no others: `requeue_stale` fails a timed-out
  third attempt without the handover, and a worker can die between marking the run failed and the
  handover's commit. Unless an older run of the expense is still about, it then stays in flight for
  ever, and submitting again is a silent no-op
  [`LostExpenses.StrandingStep`, `CleanRuns.StrandedForever`; both exceptions are reached in
  `Scenarios.LossFromTheStart` and `Scenarios.CrashLossFromTheStart`].
- A manager is promised the results of the latest run. If a worker dies after storing results but
  before its run is marked finished, that old run can later do the work of a newer one and file the
  results under its own number. The manager then sees nothing, and a FAIL can be approved without
  override. It happens exactly when the worker that brings the expense to review holds an older run
  [`Validation.ArrivesWithResults`, `Scenarios.FailCanHideFromTheStart`].
- The rule engine says every FAIL can be overridden with a reason (backend/app/rules/__init__.py:8).
  A budget FAIL cannot, because the approval checks the budget again
  [`Reachable.NoOverrideBeatsTheBudget`; such a review is reached in `Scenarios.BudgetFailFromTheStart`].
- The CANDIDATE tier is meant for pairs whose business number is missing on either side
  (backend/app/services/reconciliation.py:239). The code tests for a missing value, and an expense
  whose typed number held no digit carries the empty string instead
  [`MatcherProperties.EmptyNumberIsNotMissing`].
- The cache is said to spare repeated lookups and to stand in while the tax office is down
  (backend/app/external/nts.py:8-11). It does so only for answers whose pipeline committed: a lookup
  leaves the commit to its caller, and a failed pipeline rolls back the answer with everything else
  [`VendorCache.AskedAgainExactlyIfRolledBack`, `VendorCache.AnswerCanBeForgotten`].

## A consequence the documents do not mention

Finalising a report locks the approved expenses of its month (docs/API.md:97, docs/API.md:127). An
expense approved afterwards is in no report, and no later finalisation can take it in: a final report
contains exactly what was approved when it was finalised
[`Reachable.ReportContainsExactly`, `Reports.LateCommitIsMissed`, `Scenarios.LateApprovalFromTheStart`].

## Model

| member | source | states |
|---|---|---|
| Matcher.MatchLines | backend/app/services/reconciliation.py:176-250 | the three tiers over hash indexes, with results updated in place, give line by line the verdicts of the specification that scans all expenses, and the same leftover list; result order is input order |
| Matcher.Assign | backend/app/services/reconciliation.py:188-208 | one tier: the loops over results and candidates, the stable sort and the settling yield the greedy outcome on the state before |
| Matcher.BuildIndexes | backend/app/services/reconciliation.py:210-217 | after one pass every bucket of each index is the sublist of matching expenses in input order |
| Matcher.LookupIsScan | backend/app/services/reconciliation.py:219-247 | an index lookup of any tier answers what a scan of all expenses with the tier's condition would, in the same order |
| Matching.StableSortSorts | backend/app/services/reconciliation.py:199 | the sort orders by gap, then row number, and keeps the order of entries with equal keys |
| MatchingTheory.GreedyDominates | backend/app/services/reconciliation.py:199-204 | every queued pair is taken itself or beaten by an earlier taken pair that shares its line or its expense |
| MatchingTheory.NoBlockingPair | backend/app/services/reconciliation.py:188-208 | for every pair a tier could have made, the line got an expense no further away or the expense went to a line no later in (gap, row number) |
| MatchingTheory.AtLeastHalf | backend/app/services/reconciliation.py:188-208 | a tier makes at least half as many pairs as any one-to-one choice among the pairs free at its start |
| MatcherProperties.ExactTierByRank | backend/app/services/reconciliation.py:219-226 | a line ends MATCHED if and only if fewer lines of its exact key have a smaller row number than there are expenses with that key |
| MatcherProperties.ExactTierIgnoresExpenseOrder | backend/app/services/reconciliation.py:219-226 | which lines end MATCHED is the same for every order of the expenses |
| MatcherProperties.ExactTierIsMaximum | backend/app/services/reconciliation.py:219-226 | no one-to-one assignment of exact pairs is larger than the set of MATCHED lines |
| MatcherProperties.NearTierIsFair | backend/app/services/reconciliation.py:227-238 | the no-blocking-pair statement for the near tier, about the final result |
| MatcherProperties.NearTierAtLeastHalf | backend/app/services/reconciliation.py:227-238 | the number of MATCHED_NEAR lines is at least half of any one-to-one choice of near pairs left by the exact tier |
| MatcherProperties.HalfIsReached | backend/app/services/reconciliation.py:199-204 | cards on days 0 and 3 with expenses on days 2 and 5: two near pairs fit, one is made, so the half is tight |
| MatcherProperties.NearGapIsPositive | backend/app/services/reconciliation.py:205-206 | a MATCHED_NEAR note names a gap between one and near_days |
| MatcherProperties.NearOnlyAfterExactIsServed | backend/app/services/reconciliation.py:219-238 | if an expense went to a near line, every line with its exact key is MATCHED |
| MatcherProperties.NothingLeftToMatch | backend/app/services/reconciliation.py:219-250 | at the end no open line and unused expense satisfy the condition of any tier |
| MatcherProperties.WholeMatcherAtLeastHalf | backend/app/services/reconciliation.py:176-250 | the three tiers together decide at least half as many lines as any one-to-one choice of pairs compatible under any tier |
| MatcherProperties.MatchingConserves | backend/app/services/reconciliation.py:199-204 | no expense serves two lines, the leftover list is exactly the expenses no line holds, and both together account for every expense |
| MatcherProperties.VerdictIsJustified | backend/app/services/reconciliation.py:199-208 | a decided line holds an expense of the list that satisfies the condition of the tier it is marked with |
| MatcherProperties.VerdictInFields | backend/app/services/reconciliation.py:202-247 | in the fields themselves: MATCHED has the same non-empty number, amount and day; MATCHED_NEAR the same non-empty number and amount on different days within near_days, with that gap in the note; CANDIDATE the same amount and day and one side without a number; UNMATCHED nothing |
| MatcherProperties.LeftoversInFields | backend/app/services/reconciliation.py:219-250 | in the fields themselves: a line and an expense both left over share neither a non-empty number and amount on one day or within near_days, nor an amount and day while one side has no number |
| MatcherProperties.LeftoverInOrder | backend/app/services/reconciliation.py:249 | the leftover list keeps the order of the expenses |
| MatcherProperties.TiersKeep | backend/app/services/reconciliation.py:219-247 | a later tier changes no assignment of an earlier one |
| MatcherProperties.EmptyNumberIsNotMissing | backend/app/services/reconciliation.py:239-247 | an expense with the empty string as number is invisible to every tier exactly for the lines that carry a number |
| MatcherOrder.RowOrderIsIrrelevant | backend/app/services/reconciliation.py:188-250 | permuting the statement changes neither the verdict of any row number nor the leftover expenses |
| Matcher.CountStatuses | backend/app/services/reconciliation.py:277-291 | the four stored counters count their statuses and add up to the number of lines |
| Matcher.TallyIsSize | backend/app/services/reconciliation.py:277-279 | each counter is the number of lines with its status |
| Matcher.TallyCountsDecided | backend/app/services/reconciliation.py:281-290 | unmatched lines and decided lines account for every line |
| Matcher.ParseRows | backend/app/services/reconciliation.py:140-163 | the row loop returns the readable rows as lines and the numbers of all others, in order |
| Matcher.SeparatorsDoNotMatter | backend/app/services/reconciliation.py:75-79 | a separator anywhere in a typed number makes no difference to its normal form |
| Matcher.NormalFormIsStable | backend/app/services/reconciliation.py:75-79 | a normalized number is its own normal form |
| Matcher.NormalFormInFull | backend/app/services/reconciliation.py:75-79 | a typed number with exactly ten digits becomes those digits in their order, any other text nothing |
| Matcher.ParsedLinesAreSound | backend/app/services/reconciliation.py:142-160 | row numbers increase; a line carries the day, the positive amount and the normalised number of the row it names; every other row is reported and lacks a day, a positive amount or a merchant |
| BizNo.OneCheckDigit | backend/app/rules/catalog.py:146-154 | each nine-digit prefix has exactly one valid check digit, the one the generator appends |
| BizNo.ValidInFull | backend/app/rules/catalog.py:150-154 | ten digits pass if and only if the sum with weights 1, 3, 7, 1, 3, 7, 1, 3, 5, the carry of the ninth product and the last digit is a multiple of ten |
| BizNo.ChecksumInFull | backend/app/rules/catalog.py:146-154 | the same of a text: it passes if and only if it is ten digits with such a sum |
| BizNo.SingleErrorCaught | backend/app/rules/catalog.py:146-154 | every substitution of a single digit in a valid number is rejected |
| BizNo.SwapMissedByFive | backend/app/rules/catalog.py:150-154 | swapping unequal neighbours among the first eight digits goes unnoticed if and only if they differ by five |
| BizNo.SwapMissedByFour | backend/app/rules/catalog.py:150-154 | swapping the eighth and ninth digit goes unnoticed if and only if they agree modulo four |
| Rules.RunAllHas | backend/app/rules/__init__.py:59-63 | a result set holds exactly what the catalogued rules answer and nothing else |
| Rules.RunAllOnce | backend/app/rules/__init__.py:59-63 | no rule of the catalogue answers twice in a result set |
| Rules.FailInWords | backend/app/rules/catalog.py:25-194 | a result set holds a FAIL if and only if one of the listed conditions on the context holds |
| Rules.EvidenceInWords | backend/app/rules/catalog.py:25-76 | exactly when each evidence rule fails, warns or passes, in the fields of the context |
| Rules.PeriodInWords | backend/app/rules/catalog.py:79-105 | exactly when the period rules fail, pass or inform |
| Rules.BudgetInWords | backend/app/rules/catalog.py:108-143 | exactly when the budget rules fail, pass or warn, the warning above four fifths |
| Rules.NumberInWords | backend/app/rules/catalog.py:157-169 | exactly when the number rule warns, fails or passes, with the checksum written out |
| Rules.VendorInWords | backend/app/rules/catalog.py:172-194 | exactly when the status rules fail, warn or pass, status by status |
| Rules.OthersInWords | backend/app/rules/catalog.py:197-269 | exactly when the duplicate, day, extraction and category rules warn or pass |
| BizNo.KnownNumber | backend/app/rules/catalog.py:146-154 | the number 2208162517 passes |
| Rules.BudgetVerdict | backend/app/rules/catalog.py:108-128 | the set holds a budget FAIL if and only if no budget is registered or the claim would exceed it |
| Rules.BudgetFigures | backend/app/rules/catalog.py:117-127 | a budget FAIL against a registered budget states the budget, the sum approved so far and the amount |
| Rules.DuplicateVerdict | backend/app/rules/catalog.py:197-206 | the set holds a duplicate warning naming a list if and only if that list was found and is not empty |
| Keys.PipelineKeyIsInjective | backend/app/services/queue.py:38-42 | two printed pipeline keys are equal only for the same expense and number |
| Keys.DecimalInFull | backend/app/services/queue.py:41 | a number is printed by its decimal digits, the highest first |
| Keys.KindsAreDisjoint | backend/app/services/queue.py:46-50 | pipeline keys and report keys never meet |
| Calendar.MonthsAreDisjoint | backend/app/services/report.py:44-47 | a day lies in at most one of the half-open month ranges |
| Calendar.MonthsCover | backend/app/services/report.py:44-47 | every day from 1 January of year 1 lies in some month range |
| Calendar.YearLength | backend/app/services/report.py:45-46 | the day count behind the ranges gives a year 365 days, or 366 in leap years |
| Calendar.CalendarBegins | backend/app/services/report.py:45 | the range of the first month starts on day 1 |
| Calendar.MonthsFollow | backend/app/services/report.py:45-46 | each month range ends where the next one starts |
| Calendar.MonthLength | backend/app/services/report.py:45-46 | each month range has 31, 30, 28 or 29 days, February by the leap rule |
| Ledger.GroupSumsAgree | backend/app/services/report.py:60-79 | the grouped query gives every category the sum that a query for it alone would |
| Ledger.ApprovedSumInFull | backend/app/services/budget.py:17-29 | the approved sum is the sum of the amounts of exactly the approved live expenses of the project and category |
| Ledger.SummaryInFull | backend/app/services/report.py:76-138 | a summary over the rows themselves: lines, month and cumulative sums, remainders, column totals, and the approved, rejected and pending counts as sizes of explicit sets |
| Ledger.CumulativeIsSumOfMonths | backend/app/services/report.py:76-91 | the cumulative column of a month is the sum of the month columns of all months so far |
| Ledger.MonthTotalIsAll | backend/app/services/report.py:79-118 | the month total over the budget lines is the sum of all approved expenses of the month once each has a budget line |
| Ledger.RemainingColumn | backend/app/services/report.py:115-120 | the remaining total is the budget total less the cumulative total |
| Effects.StatusMoves | backend/app/services/expense.py:51-265 | an expense moves only along DRAFT, SUBMITTED, VALIDATING, NEEDS_REVIEW, APPROVED or REJECTED and back to DRAFT, with the handover's short cut from SUBMITTED to NEEDS_REVIEW, and along each edge exactly at the action that owns it: results of a worker push on a VALIDATING expense only |
| Effects.WorkerMovesStatus | backend/app/pipeline.py:42-118 | the gate, the stored results and the handover change the status of the expense of their own run and nothing else in its row; no other worker action touches a row |
| QueueInvariants.QueueStep | backend/app/services/queue.py:56-121 | every step keeps the attempt bound of each status, one worker per run, and a run RUNNING while a worker is on it |
| QueueKeys.KeysStep | backend/app/services/queue.py:29-53 | every step keeps each run's key equal to the print of its target and its running number |
| QueueKeys.KeysAreUnique | backend/app/models/automation.py:51 | no two runs carry the same key, so the UNIQUE constraint never fires |
| QueueKeys.NumbersAreGapless | backend/app/services/queue.py:29-42 | an expense with n runs has exactly the keys 1 to n |
| QueueKeys.RunCountIsSize | backend/app/services/queue.py:29-33 | the count behind a new run's number is the number of runs of the expense |
| QueueProgress.WorkerUsesPotential | backend/app/worker.py:36-51 | every worker step, failure, death and recovery lowers one measure |
| QueueProgress.WorkersComeToRest | backend/app/worker.py:81-99 | the worker steps of any run are bounded by the measure at its start plus 24 for each new job |
| QueueProgress.RestIsDrained | backend/app/worker.py:81-99 | as long as a run is queued or running some worker action is possible, so at rest the queue is drained |
| QueueProgress.ClaimsAreBounded | backend/app/services/queue.py:56-91 | claims of any run are bounded by the attempts left of the open runs plus three for each new job |
| QueueProgress.FinishedRunsStay | backend/app/services/queue.py:78-91 | a succeeded or failed run never changes again |
| Locks.LocksStep | backend/app/services/expense.py:115-151 | every step keeps one open approval per expense, one budget holder per project and category, and locked expenses under review |
| Handover.CycleStep | backend/app/services/expense.py:59-87 | every step keeps: an in-flight expense has a run, its newest run has not succeeded, and deleted expenses are drafts |
| LostExpenses.LostOrLookedAfter | backend/app/worker.py:6-10 | an expense in flight has a newest run that is queued, running or about to be handed over if and only if it is not stranded |
| LostExpenses.StrandingStep | backend/app/services/queue.py:111-115 | a step strands an expense if and only if it gives up on the newest run of one in flight: a recovery at the third attempt, or a death before the handover |
| LostExpenses.TimeoutsStrand | backend/app/services/queue.py:94-121 | from any state with a waiting run, three silent deaths strand its expense |
| LostExpenses.CrashStrands | backend/app/worker.py:46-51 | a last failure whose worker dies before the handover strands the expense |
| CleanRuns.CleanStep | backend/app/worker.py:36-51 | every step keeps: if no run of an expense failed after its pipeline returned, every run still to be worked off is its newest, and the expense is in flight |
| CleanRuns.StrandedForever | backend/app/services/expense.py:59-73 | a stranded expense with clean runs stays stranded whatever anybody does |
| Validation.LatestStep | backend/app/pipeline.py:42-118 | every step keeps what the newest run of each expense has stored and what its worker carries |
| Validation.ShownResultsAreCurrent | backend/app/services/expense.py:90-112 | what is shown of a reviewed expense is one whole rule set on exactly its current fields, or the flag of a failed run, or nothing |
| Validation.ShownOnRecord | backend/app/services/expense.py:90-112 | a result is shown of an expense if and only if a stored row of it under its largest run number holds that result |
| Validation.FailOnRecord | backend/app/services/expense.py:131-134 | a FAIL is shown if and only if such a row has the severity FAIL |
| Validation.ArrivesWithResults | backend/app/pipeline.py:105-118 | an expense comes to review with results shown if and only if the worker that brings it there holds its newest run |
| Approvals.ChecksStep | backend/app/services/expense.py:126-142 | every step keeps: past its check an open approval knows whether a FAIL is shown, and has override and reason if so, even while others act |
| Approvals.ShownStep | backend/app/services/expense.py:229-233 | every step keeps: a reviewed expense with clean runs has results shown |
| Approvals.LogStep | backend/app/services/expense.py:165-174 | every step keeps: one logged approval per approved expense, with a reason if it is marked as override; for expenses with clean runs it is marked exactly if a FAIL was shown |
| BudgetSafety.BooksStep | backend/app/services/expense.py:144-165 | every step keeps: no approved sum exceeds its budget, and a budget holder past its sum still has the committed total |
| BudgetSafety.ApprovedHasBudget | backend/app/services/expense.py:144-151 | an approved expense has a registered budget |
| BudgetSafety.FitsInFull | backend/app/services/expense.py:144-163 | a claim is not over its budget if and only if the category's budget row covers the explicit sum of approved amounts and the claim |
| BudgetSafety.BudgetPageAgrees | backend/app/services/budget.py:47-73 | the budget page shows line by line the sum an approval would compute, and never a negative remainder |
| BudgetSafety.OverIsFinal | backend/app/services/expense.py:152-163 | once a claim exceeds its budget no run ever approves an expense with that claim |
| BudgetSafety.BudgetFailMeansOver | backend/app/pipeline.py:70-75 | a shown budget FAIL means that the current fields exceed the budget now |
| BudgetSafety.BudgetFailIsFinal | backend/app/rules/catalog.py:108-128 | an expense under review with a shown budget FAIL is never approved with the same fields |
| Duplicates.PairsStep | backend/app/pipeline.py:223-238 | every step keeps: of two standing expenses for one purchase whose newest runs have both looked, one has found the other |
| Duplicates.NotBothLookClean | backend/app/rules/catalog.py:197-206 | of two such expenses judged by their newest runs, one shows the warning that names the other |
| Duplicates.ListInFields | backend/app/pipeline.py:223-238 | the list of the read step holds d if and only if d is another expense, neither deleted nor rejected, with equal project, equal non-empty number, equal amount and equal day |
| Duplicates.OthersOnlyStep | backend/app/pipeline.py:227-229 | every step keeps: no worker's or stored list holds its own expense |
| Reports.ReportsStep | backend/app/services/report.py:141-222 | every step keeps: one report per period, locks only by the final report of the own project and month, final figures equal to those of the locked expenses, no negative remainder in any stored summary |
| Reports.SummaryCoversMonth | backend/app/services/report.py:79-129 | month total and count of a summary cover every approved expense of the month, whatever its category |
| Reports.SummaryIsNotNegative | backend/app/services/report.py:76-123 | within the budgets no summary shows a negative remainder |
| Reports.FinalizeLocksTheMonth | backend/app/services/report.py:196-209 | the finalisation locks every approved expense of its month |
| Reports.LateCommitIsMissed | backend/app/services/expense.py:144-190 | an approval committed after the report of its month became final leaves the expense without a report |
| Reports.FinalizeTakesExactly | backend/app/services/report.py:196-209 | after the finalisation an expense is in the report if and only if it was an approved one of its project and month |
| Reports.FinalReportKeepsExpenses | backend/app/services/report.py:180-222 | no step adds an expense to a final report or removes one |
| Reports.MissedStaysMissed | backend/app/services/report.py:196-209 | an approved expense of an already final month stays unlocked |
| Reachable.EveryRunIsSound | backend/app/services/expense.py:1-10 | all invariants hold in every state reachable from the empty database |
| Reachable.NoBudgetIsOverspent | backend/app/services/expense.py:118-125 | in every reachable state each approved sum is within its budget, and zero where none is registered |
| Reachable.FinalReportsStayTrue | backend/app/services/report.py:180-222 | a final report never changes, and for ever its total and count are those of exactly the expenses it locked, of its project and month |
| Reachable.ReportContainsExactly | backend/app/services/report.py:180-222 | a final report contains, for ever, exactly the expenses that were approved, of its project and month, when it was finalised; an approved expense of the month is missed if and only if it was not approved by then |
| Reachable.LateApprovalsStayOut | backend/app/services/report.py:196-209 | an approved expense without a report in an already final month is in no report, for ever |
| Reachable.ApprovedAsValidated | backend/app/services/expense.py:99-142 | an approved expense with clean runs was shown the whole rule set on its approved fields or the flag of a failed run; its one logged approval overrides, with a reason, exactly if a FAIL was shown |
| Reachable.NoOverrideBeatsTheBudget | backend/app/services/expense.py:152-163 | in every reachable state a shown budget FAIL blocks these fields for good, with or without override |
| Reachable.DuplicatesAreFlagged | backend/app/pipeline.py:223-238 | in every reachable state, of two approved claims for one purchase judged by their newest runs, one was flagged with the other |
| Reachable.NoneDuplicatesItself | backend/app/pipeline.py:227-229 | in every reachable state no expense is shown as a duplicate of itself |
| Reachable.NoneIsLost | backend/app/worker.py:6-10 | in every reachable state an expense in flight is looked after, or a step of the run gave up on it |
| Reachable.AtRestOnlyTheLost | backend/app/worker.py:81-99 | in every reachable state in which no worker action is possible, an expense is in flight only if it is stranded |
| Reachable.QueueStaysInBounds | backend/app/services/queue.py:18-19 | in every reachable state keys are distinct and every run keeps within three attempts |
| Reachable.OneRunPerSubmission | backend/app/services/expense.py:59-87 | an expense has one run for each time it left DRAFT, numbered without a gap |
| Scenarios.FailCanHide | backend/app/worker.py:36-51 | from any state at rest with a fresh submission within budget, a run leads to its approval without override and with nothing shown although the result table holds a FAIL on exactly its fields under an older run |
| Scenarios.FailCanHideFromTheStart | backend/app/services/expense.py:90-112 | such an approval is reachable from the empty database |
| Scenarios.LossFromTheStart | backend/app/services/queue.py:111-115 | an expense stranded by three timeouts is reachable from the empty database |
| Scenarios.CrashLossFromTheStart | backend/app/worker.py:46-51 | an expense stranded by a death before the handover is reachable from the empty database |
| Scenarios.BudgetFailFromTheStart | backend/app/rules/catalog.py:117-127 | an expense under review with a shown budget FAIL is reachable from the empty database |
| Scenarios.LateApprovalFromTheStart | backend/app/services/report.py:196-209 | an expense approved after its month became final is reachable from the empty database |
| Badges.BadgeIsLatestVerdict | backend/app/api/routes/expenses.py:151-181 | the one batch query gives an expense a badge if and only if it is listed and its newest run has results, and the badge is the worst of them |
| Badges.BadgeInWords | backend/app/api/routes/expenses.py:164-181 | over the stored rows of the newest run: FAIL if one failed, otherwise WARN if one warned, otherwise INFO if one informed, otherwise PASS |
| Pipeline.Undisturbed | backend/app/pipeline.py:42-118 | from the claim a run of the workflow leads to the results of the whole catalogue stored with the move to review |
| Pipeline.JudgesInFields | backend/app/pipeline.py:60-103 | the context judged: the current fields, the category's budget row, the explicit approved sum, and exactly the explicit duplicates |
| Pipeline.ApprovalLeads | backend/app/services/expense.py:115-191 | an approval that passes all checks is a run of the five approval steps |
| Services.Database.Submit | backend/app/services/expense.py:59-87 | a draft becomes SUBMITTED with one queued run whose printed key counts the expense's runs; a submission in flight is repeated without effect; anything else is refused unchanged |
| Services.Database.UpdateExpense | backend/app/api/routes/expenses.py:260-285 | field by field, a given value is stored and any other stays; the status is DRAFT afterwards; locked, missing or wrong-state expenses are refused unchanged |
| Services.Database.SoftDelete | backend/app/services/expense.py:251-265 | only a live draft is deleted; each refusal has its cause and changes nothing |
| Services.Database.Approve | backend/app/services/expense.py:115-191 | over the tables: refused for want of an override exactly if a row of the newest run is a FAIL and none is given, for want of a reason exactly if the comment is blank, for the budget exactly if the claim does not fit; otherwise approved, with the override mark set exactly if such a row exists; success is a run of the workflow |
| Services.Database.Reject | backend/app/services/expense.py:194-226 | a reviewed expense is rejected with its reason and a log entry |
| Services.Database.MarkValidated | backend/app/services/expense.py:229-248 | moves VALIDATING to NEEDS_REVIEW, leaves any other status alone, and refuses a missing or deleted expense |
| Services.Database.CreateReport | backend/app/services/report.py:141-177 | accepted exactly for an existing project without a report of that month; stores summary and job together |
| Services.Database.Finalize | backend/app/services/report.py:180-222 | accepted exactly for a draft report; summary over the rows, locks on exactly the unlocked approved expenses of the month, and status change together |
| Services.LocksTheMonth | backend/app/services/report.py:196-209 | the bulk update locks exactly the approved, live, unlocked expenses of the project whose day lies in the month range |
| Services.CreatesReport | backend/app/services/report.py:156-164 | one report of the period is added with its summary over the rows and one queued job with its printed key, and nothing else changes |
| Services.Database.ClaimNext | backend/app/services/queue.py:56-75 | claims the oldest queued run, or none exactly if none is queued |
| Services.Database.Finish | backend/app/services/queue.py:78-91 | ends a run as done, queued again or failed for good according to its attempts |
| Services.Database.RequeueStale | backend/app/services/queue.py:94-121 | recovers each stale run by its own attempts, no other run, and reports how many; the loop is a run of the workflow |
| Services.Database.RunExpensePipeline | backend/app/pipeline.py:42-118 | finds nothing to do, or stores the verdict on the current fields, the explicit budget, sum and duplicates with the move to review, each result filed in order under expense and run, or leaves the expense past the gate with nothing stored |
| Services.Database.HandlePermanentFailure | backend/app/worker.py:54-78 | hands an expense still in flight to a person with one flag, and leaves any other alone |
| Services.Database.Execute | backend/app/worker.py:36-51 | whatever raises on the way, the worker ends free, the run succeeded, waiting or failed by its attempts, and unless it waits its expense is no longer in flight; the whole is a run of the workflow |
| VendorCache.Cache.CheckVendorStatus | backend/app/external/nts.py:31-63 | a known status less than 2592000 seconds old is the answer; otherwise the office's code 01, 02, 03 or any other gives ACTIVE, SUSPENDED, CLOSED or UNREGISTERED, and no reply the known status or UNVERIFIED; and so the answer is the most recent one not rolled back, UNVERIFIED exactly if there is none |
| VendorCache.Cache.EndTransaction | backend/app/pipeline.py:117-118 | a commit keeps what the transaction's lookups wrote, a rollback brings the committed table back |
| VendorCache.LatestAnswerIs | backend/app/external/nts.py:38-63 | the most recent answer as the history defines it: the last one that was committed, or not rolled back |
| VendorCache.TablesHoldLastAnswer | backend/app/external/nts.py:89-117 | the row of a number, committed or seen in the open transaction, is that last answer with its time, and no other status is known |
| VendorCache.ForgottenExactlyIfRolledBack | backend/app/worker.py:46-48 | the last answer for a number is known afterwards if and only if its lookup was not rolled back |
| VendorCache.NoFetchWithinTtl | backend/app/external/nts.py:45-50 | under a clock that does not run backwards no fetch follows a kept answer within thirty days |
| VendorCache.AskedAgainExactlyIfRolledBack | backend/app/external/nts.py:45-52 | within thirty days of the last answer the next lookup goes out again if and only if that answer's lookup was rolled back |
| VendorCache.AnswerCanBeForgotten | backend/app/worker.py:46-48 | an answer, a rollback and an unanswered lookup end in UNVERIFIED |
| VendorCache.FailuresForgetNothing | backend/app/external/nts.py:53-59 | any number of unanswered lookups and commits leave every known row as it is |

## Left out

- Routing, schemas, authentication and roles: whoever calls is taken to be allowed to.
- Titles, vendor names, purposes, messages, timestamps, notifications, audit rows, AI run records and the override count of a summary: no modelled decision reads them. Of a rule result only severity, the budget figures and the duplicate ids are kept.
- AI extraction and suggestion, holidays and the vendor lookup during a pipeline: any outcome may occur; they are inputs of the step that stores results.
- Matcher.ParseRows: starts from the cells of a row with its date and amount already read; encodings, header aliases, date formats and decimal syntax are not modelled, and amounts are whole.
- Matcher.SeparatorsDoNotMatter: a digit is an ASCII digit; the source's pattern also keeps digits of other scripts.
- Two pipelines that look up the same number in overlapping transactions: the cache serves one transaction at a time.
- A live worker that outlasts the ten-minute limit: only runs without a live worker are recovered. The claim of the workflow may take any queued run, which covers SKIP LOCKED; the oldest-first order is in `Services.Database.ClaimNext`.
- The unlocked read and write of the pipeline's gate and of the failure handler are one step each, and the gate waits for an open approval of the expense; stale reads through the ORM's identity map are not modelled.
- The finalisation is one atomic step; at READ COMMITTED an approval could slip between its summary and its update.
- Evidence uploads: the evidence count is an input of the pipeline; that an upload reads the expense without a row lock is not modelled.
- The endless polling loop of the worker and its sleep: its iterations are the claim, execute and recover operations, in any order.
- The report's narrative and its generation: the run exists and can fail, its effect touches no modelled table.
- An explicit null for a required field in an edit: the database refuses it.
- Reachable.ApprovedAsValidated: holds for expenses none of whose runs failed after its pipeline had returned; without that, `Validation.ArrivesWithResults` gives the exact step at which nothing is shown, and `Scenarios.FailCanHide` shows that such a run exists.
- Services.Database.Execute: does not cover the death of the worker in mid-run; the workflow's crash step does.
- Dashboard percentiles, history listing, holiday sync, extraction benchmark, seeds, migrations and the front end: no state rule of their own.
