/**
 The services as they are written: methods that change the tables in place. Each runs from the
 moment it has its row locks to its commit, and is proved to take the database through steps of
 the workflow, so that what holds of every run of the workflow holds of every call.
 */
module Services {
  import opened Common
  import opened Rules
  import opened Ledger
  import opened Calendar
  import opened Workflow
  import opened BudgetSafety
  import opened Pipeline
  import opened QueueKeys
  import opened Validation
  import Keys

  datatype Error =
    | NotFound | InvalidTransition | ExpenseLocked | OverrideRequired | CommentRequired
    | BudgetNotFound | BudgetExceeded | DuplicatePeriod

  datatype Outcome = Accepted | Refused(error: Error)

  /** A PATCH body: absent fields stay; the business number may be set to null. */
  datatype Changes = Changes(category: Option<Category>, bizNo: Option<Option<string>>, amount: Option<Won>,
      spentAt: Option<int>)

  function Field<T>(change: Option<T>, now: T): T {
    if change.Some? then change.value else now
  }

  function Patched(c: Claim, x: Changes): Claim {
    Claim(c.project, Field(x.category, c.category), Field(x.bizNo, c.bizNo), Field(x.amount, c.amount),
        Field(x.spentAt, c.spentAt))
  }

  /** The row after an edit, field by field: what was given is stored, everything else stays. */
  predicate EditedBy(before: Expense, x: Changes, now: Expense) {
    && now.claim.project == before.claim.project
    && (x.category.Some? ==> now.claim.category == x.category.value)
    && (x.category.None? ==> now.claim.category == before.claim.category)
    && (x.bizNo.Some? ==> now.claim.bizNo == x.bizNo.value)
    && (x.bizNo.None? ==> now.claim.bizNo == before.claim.bizNo)
    && (x.amount.Some? ==> now.claim.amount == x.amount.value)
    && (x.amount.None? ==> now.claim.amount == before.claim.amount)
    && (x.spentAt.Some? ==> now.claim.spentAt == x.spentAt.value)
    && (x.spentAt.None? ==> now.claim.spentAt == before.claim.spentAt)
    && now.status == Draft && now.reportId == before.reportId && now.deleted == before.deleted
    && now.rejectReason == before.rejectReason
  }

  predicate UnderReview(s: State, e: nat) {
    Live(s, e) && s.expenses[e].status == NeedsReview
  }


  /** One report was added, with its summary and one queued job, and nothing else changed. */
  ghost predicate ReportCreated(s: State, u: State, project: nat, year: nat, month: nat)
    requires project < |s.projects| && IsMonth(year, month)
  {
    var n, k := |s.reports|, |s.runs|;
    && |u.reports| == n + 1 && u.reports[..n] == s.reports && |u.runs| == k + 1 && u.runs[..k] == s.runs
    && u.reports[n].project == project && u.reports[n].year == year && u.reports[n].month == month
        && !u.reports[n].final
    && SummaryHolds(u.reports[n].summary, s.expenses, project, s.projects[project], year, month)
    && u.runs[k].target == ForReport(n) && u.runs[k].status == Queued && u.runs[k].attempt == 0
    && u.runs[k].key == "report:" + Keys.Decimal(n) + ":generate"
    && u.expenses == s.expenses && u.projects == s.projects && u.rows == s.rows && u.approvals == s.approvals
  }

  lemma CreatesReport(s: State, project: nat, year: nat, month: nat)
    requires project < |s.projects| && IsMonth(year, month)
    ensures ReportCreated(s, DoCreateReport(s, project, year, month), project, year, month)
  {
    SummaryInFull(s.expenses, project, s.projects[project], year, month);
  }

  /**
   Exactly the approved, live, unlocked expenses of the project from the first day to before the
   last are locked by r.
   */
  ghost predicate LockedInto(before: seq<Expense>, now: seq<Expense>, r: nat, project: nat, start: int, end: int) {
    && |now| == |before|
    && forall i :: 0 <= i < |now| ==>
         now[i] == if before[i].status == Approved && !before[i].deleted && before[i].claim.project == project
                      && start <= before[i].claim.spentAt < end && before[i].reportId == None
                   then before[i].(reportId := Some(r)) else before[i]
  }

  lemma LocksTheMonth(es: seq<Expense>, r: nat, project: nat, year: nat, month: nat)
    requires IsMonth(year, month)
    ensures LockedInto(es, Locked(es, r, ApprovedOfMonth(project, year, month)), r, project,
                       MonthRange(year, month).0, MonthRange(year, month).1)
  {
  }

  /** The results were added in their order, each filed under the expense and the run. */
  ghost predicate FiledUnder(before: seq<Row>, now: seq<Row>, e: nat, r: nat, results: seq<Result>) {
    && |now| == |before| + |results|
    && (forall i :: 0 <= i < |before| ==> now[i] == before[i])
    && forall k :: 0 <= k < |results| ==>
         var row := now[|before| + k]; row.expense == e && row.run == r && row.result == results[k]
  }

  /** Some stored row of the expense under its largest run number is a FAIL. */
  ghost predicate FailStored(rows: seq<Row>, runs: seq<Run>, e: nat) {
    exists i :: 0 <= i < |rows| && rows[i].expense == e && rows[i].result.severity == Fail
                && rows[i].run < |runs| && runs[rows[i].run].target == ForExpense(e)
                && forall q :: rows[i].run < q < |runs| ==> runs[q].target != ForExpense(e)
  }

  /** The given fields are set one after the other. */
  method SetFields(c: Claim, x: Changes) returns (claim: Claim)
    ensures claim == Patched(c, x)
  {
    claim := c;
    if x.category.Some? {
      claim := claim.(category := x.category.value);
    }
    if x.bizNo.Some? {
      claim := claim.(bizNo := x.bizNo.value);
    }
    if x.amount.Some? {
      claim := claim.(amount := x.amount.value);
    }
    if x.spentAt.Some? {
      claim := claim.(spentAt := x.spentAt.value);
    }
  }

  // ---------------------------------------------------------------- the database

  class Database {
    var projects: seq<seq<Budget>>
    var expenses: seq<Expense>
    var runs: seq<Run>
    var rows: seq<Row>
    var approvals: seq<Approval>
    var reports: seq<Report>
    // Transactions and worker processes elsewhere, and the history the proofs speak of.
    ghost var approving: map<nat, Approving>
    ghost var workers: map<nat, Work>
    ghost var late: set<nat>
    ghost var contexts: map<nat, Context>

    constructor ()
      ensures S() == INIT
    {
      projects, expenses, runs, rows, approvals, reports := [], [], [], [], [], [];
      approving, workers, late, contexts := map[], map[], {}, map[];
    }

    ghost function S(): State
      reads this
    {
      State(projects, expenses, runs, rows, approvals, reports, approving, workers, late, contexts)
    }

    predicate Exists(e: nat)
      reads this
      ensures Exists(e) == Live(S(), e)
    {
      e < |expenses| && !expenses[e].deleted
    }

    // -------------------------------------------------------------- the author

    /** Idempotent: submitting once more while the pipeline is on changes nothing and is no error. */
    method Submit(e: nat) returns (o: Outcome)
      requires RowFree(S(), e)
      modifies this
      ensures o == Accepted <==> Live(old(S()), e) && (old(expenses)[e].status == Draft || InFlight(old(expenses)[e]))
      ensures o == Refused(NotFound) <==> !Live(old(S()), e)
      ensures o == Accepted || o == Refused(NotFound) || o == Refused(InvalidTransition)
      ensures S() == if Live(old(S()), e) && old(expenses)[e].status == Draft
              then Next(old(S()), ByUser(UserAction.Submit(e))) else old(S())
      ensures Live(old(S()), e) && old(expenses)[e].status == Draft ==>
                && expenses == old(expenses)[e := old(expenses)[e].(status := Submitted)]
                && runs == old(runs) + [Run(ForExpense(e), Queued, 0,
                     "expense:" + Keys.Decimal(e) + ":pipeline:" + Keys.Decimal(|OwnRuns(old(runs), e)| + 1))]
    {
      if !Exists(e) {
        return Refused(NotFound);
      }
      if expenses[e].status == Submitted || expenses[e].status == Validating {
        return Accepted;
      }
      if expenses[e].status != Draft {
        return Refused(InvalidTransition);
      }
      expenses := expenses[e := expenses[e].(status := Submitted)];
      EnqueueExpensePipeline(e);
      return Accepted;
    }

    method EnqueueExpensePipeline(e: nat)
      modifies this`runs
      ensures runs == old(runs) + [Run(ForExpense(e), Queued, 0, Keys.PipelineKey(e, RunCount(old(runs), e) + 1))]
      ensures RunCount(old(runs), e) == |OwnRuns(old(runs), e)|
    {
      RunCountIsSize(runs, e);
      var n := RunCount(runs, e);
      runs := runs + [Run(ForExpense(e), Queued, 0, Keys.PipelineKey(e, n + 1))];
    }

    /** An edit sets the given fields one by one and brings a rejected expense back to DRAFT. */
    method UpdateExpense(e: nat, x: Changes) returns (o: Outcome)
      requires RowFree(S(), e)
      modifies this
      ensures o == Refused(NotFound) <==> !Live(old(S()), e)
      ensures o == Refused(ExpenseLocked) <==> Live(old(S()), e) && old(expenses)[e].reportId.Some?
      ensures o == Accepted <==>
                && Live(old(S()), e) && old(expenses)[e].reportId.None?
                && (old(expenses)[e].status == Draft || old(expenses)[e].status == Rejected)
      ensures o == Accepted || o.error == NotFound || o.error == ExpenseLocked || o.error == InvalidTransition
      ensures o == Accepted ==>
                var a := ByUser(Update(e, Patched(old(expenses)[e].claim, x)));
                Enabled(old(S()), a) && S() == Next(old(S()), a)
      ensures o == Accepted ==> |expenses| == |old(expenses)| && EditedBy(old(expenses)[e], x, expenses[e])
      ensures forall d :: 0 <= d < |old(expenses)| && (d != e || o != Accepted) ==>
                d < |expenses| && expenses[d] == old(expenses)[d]
      ensures o != Accepted ==> S() == old(S())
    {
      if !Exists(e) {
        return Refused(NotFound);
      }
      if expenses[e].reportId.Some? {
        return Refused(ExpenseLocked);
      }
      if expenses[e].status != Draft && expenses[e].status != Rejected {
        return Refused(InvalidTransition);
      }
      var claim := SetFields(expenses[e].claim, x);
      expenses := expenses[e := expenses[e].(claim := claim)];
      if expenses[e].status == Rejected {
        expenses := expenses[e := expenses[e].(status := Draft)];
      }
      return Accepted;
    }

    method SoftDelete(e: nat) returns (o: Outcome)
      requires RowFree(S(), e)
      modifies this
      ensures o == Accepted <==> Live(old(S()), e) && old(expenses)[e].status == Draft
      ensures o == Refused(NotFound) <==> !Live(old(S()), e)
      ensures o == Refused(InvalidTransition) <==> Live(old(S()), e) && old(expenses)[e].status != Draft
      ensures o == Accepted ==> S() == Next(old(S()), ByUser(Delete(e)))
      ensures o == Accepted ==> expenses == old(expenses)[e := old(expenses)[e].(deleted := true)]
      ensures o != Accepted ==> S() == old(S())
    {
      if !Exists(e) {
        return Refused(NotFound);
      }
      if expenses[e].status != Draft {
        return Refused(InvalidTransition);
      }
      expenses := expenses[e := expenses[e].(deleted := true)];
      return Accepted;
    }

    // -------------------------------------------------------------- the manager

    /**
     Approval from its first lock to its commit. It succeeds exactly if the expense is under
     review, every FAIL is overridden with a reason, and the claim is not over its budget.
     */
    method Approve(ghost t: nat, e: nat, override: bool, comment: Option<string>) returns (o: Outcome)
      requires RowFree(S(), e) && t !in approving
      requires e < |expenses| ==> BudgetFree(S(), expenses[e].claim.project, expenses[e].claim.category)
      modifies this
      ensures o == Refused(NotFound) <==> !Live(old(S()), e)
      ensures o == Accepted <==>
                && Live(old(S()), e) && old(expenses)[e].status == NeedsReview
                && (HasFail(LatestResults(old(S()), e)) ==> override) && (override ==> !Blank(comment))
                && !Over(old(S()), old(expenses)[e].claim)
      ensures o == Refused(InvalidTransition) <==> Live(old(S()), e) && old(expenses)[e].status != NeedsReview
      ensures o == Refused(OverrideRequired) <==>
              UnderReview(old(S()), e) && HasFail(LatestResults(old(S()), e)) && !override
      ensures o == Refused(CommentRequired) <==> UnderReview(old(S()), e) && override && Blank(comment)
      ensures o == Refused(BudgetNotFound) ==> BudgetRow(old(S()), old(expenses)[e].claim).None?
      ensures o == Refused(BudgetExceeded) ==> BudgetRow(old(S()), old(expenses)[e].claim).Some?
      ensures o == Refused(OverrideRequired) <==>
                && e < |old(expenses)| && !old(expenses)[e].deleted && old(expenses)[e].status == NeedsReview
                    && !override
                && FailStored(old(rows), old(runs), e)
      ensures o == Refused(CommentRequired) <==>
                && e < |old(expenses)| && !old(expenses)[e].deleted && old(expenses)[e].status == NeedsReview
                    && override
                && (comment.Some? ==> forall i :: 0 <= i < |comment.value| ==> IsSpace(comment.value[i]))
      ensures o == Accepted ==>
                && expenses == old(expenses)[e := old(expenses)[e].(status := Approved)]
                && approvals == old(approvals) + [Approval(e, FailStored(old(rows), old(runs), e), comment)]
      ensures o == Accepted ==> FitsBudget(old(projects), old(expenses), old(expenses)[e].claim)
      ensures o == Refused(BudgetNotFound) || o == Refused(BudgetExceeded) ==>
                e < |old(expenses)| && !FitsBudget(old(projects), old(expenses), old(expenses)[e].claim)
      ensures o == Accepted ==> Leads(old(S()), S())
      ensures o == Accepted ==> S() == ApprovedState(old(S()), e, HasFail(LatestResults(old(S()), e)), comment)
      ensures o != Accepted ==> S() == old(S())
    {
      if !Exists(e) {
        return Refused(NotFound);
      }
      var x := expenses[e];
      if x.status != NeedsReview {
        return Refused(InvalidTransition);
      }
      FailOnRecord(S(), e);
      FitsInFull(S(), x.claim);
      var fails := HasFail(LatestValidations(e));
      if fails && !override {
        return Refused(OverrideRequired);
      }
      if override && Blank(comment) {
        return Refused(CommentRequired);
      }
      var budget := GetBudget(x.claim);
      if budget.None? {
        return Refused(BudgetNotFound);
      }
      var already := ApprovedSum(expenses, x.claim.project, x.claim.category);
      if already + x.claim.amount > budget.value {
        return Refused(BudgetExceeded);
      }
      ApprovalLeads(S(), t, e, override, comment);
      expenses := expenses[e := x.(status := Approved)];
      approvals := approvals + [Approval(e, fails && override, comment)];
      return Accepted;
    }

    function LatestValidations(e: nat): (rs: seq<Result>)
      reads this
      ensures rs == LatestResults(S(), e)
    {
      match LatestRun(runs, e)
      case None => []
      case Some(r) => ResultsOf(rows, e, r)
    }

    function GetBudget(c: Claim): (b: Option<nat>)
      reads this
      ensures b == BudgetRow(S(), c)
    {
      if c.project < |projects| then BudgetOf(projects[c.project], c.category) else None
    }

    method Reject(e: nat, reason: string) returns (o: Outcome)
      requires RowFree(S(), e)
      modifies this
      ensures o == Accepted <==> Live(old(S()), e) && old(expenses)[e].status == NeedsReview
      ensures o == Refused(NotFound) <==> !Live(old(S()), e)
      ensures o == Refused(InvalidTransition) <==> Live(old(S()), e) && old(expenses)[e].status != NeedsReview
      ensures o == Accepted ==> S() == Next(old(S()), ByUser(UserAction.Reject(e, reason)))
      ensures o == Accepted ==>
                && expenses == old(expenses)[e := old(expenses)[e].(status := Rejected, rejectReason := Some(reason))]
                && approvals == old(approvals) + [Rejection(e, reason)]
      ensures o != Accepted ==> S() == old(S())
    {
      if !Exists(e) {
        return Refused(NotFound);
      }
      if expenses[e].status != NeedsReview {
        return Refused(InvalidTransition);
      }
      expenses := expenses[e := expenses[e].(status := Rejected)];
      expenses := expenses[e := expenses[e].(rejectReason := Some(reason))];
      approvals := approvals + [Rejection(e, reason)];
      return Accepted;
    }

    // -------------------------------------------------------------- reports

    method CreateReport(project: nat, year: nat, month: nat) returns (o: Outcome)
      requires IsMonth(year, month)
      modifies this
      ensures o == Refused(NotFound) <==> project >= |old(projects)|
      ensures o == Accepted <==> Enabled(old(S()), ByUser(UserAction.CreateReport(project, year, month)))
      ensures o == Accepted ==> S() == Next(old(S()), ByUser(UserAction.CreateReport(project, year, month)))
      ensures o == Refused(DuplicatePeriod) <==>
                project < |old(projects)| && exists i ::
                  && 0 <= i < |old(reports)| && old(reports)[i].project == project
                  && old(reports)[i].year == year && old(reports)[i].month == month
      ensures o == Accepted ==>
                && |reports| == |old(reports)| + 1 && reports[..|old(reports)|] == old(reports)
                && reports[|old(reports)|].summary ==
                    BuildSummary(old(expenses), project, old(projects)[project], year, month)
      ensures o != Accepted ==> S() == old(S())
    {
      if project >= |projects| {
        return Refused(NotFound);
      }
      if exists i :: 0 <= i < |reports| && SamePeriod(reports[i], project, year, month) {
        return Refused(DuplicatePeriod);
      }
      var summary := BuildSummary(expenses, project, projects[project], year, month);
      var r := |reports|;
      reports := reports + [Report(project, year, month, false, summary)];
      EnqueueReportGeneration(r);
      return Accepted;
    }

    method EnqueueReportGeneration(r: nat)
      modifies this`runs
      ensures runs == old(runs) + [Run(ForReport(r), Queued, 0, Keys.GenerationKey(r))]
      ensures Keys.GenerationKey(r) == "report:" + Keys.Decimal(r) + ":generate"
    {
      runs := runs + [Run(ForReport(r), Queued, 0, Keys.GenerationKey(r))];
    }

    /** Figures are taken anew, the month's approved expenses locked, and the report closed in one commit. */
    method Finalize(r: nat) returns (o: Outcome)
      requires r < |reports| ==> reports[r].project < |projects| && IsMonth(reports[r].year, reports[r].month)
      modifies this
      ensures o == Refused(NotFound) <==> r >= |old(reports)|
      ensures o == Refused(InvalidTransition) <==> r < |old(reports)| && old(reports)[r].final
      ensures o == Accepted <==> Enabled(old(S()), ByUser(UserAction.Finalize(r)))
      ensures o == Accepted ==> S() == Next(old(S()), ByUser(UserAction.Finalize(r)))
      ensures o == Accepted ==>
                var x := old(reports)[r];
                && |reports| == |old(reports)| && reports == old(reports)[r := reports[r]]
                && reports[r] == x.(final := true, summary := reports[r].summary)
                && SummaryHolds(reports[r].summary, old(expenses), x.project, old(projects)[x.project], x.year, x.month)
                && LockedInto(old(expenses), expenses, r, x.project, MonthRange(x.year, x.month).0,
                    MonthRange(x.year, x.month).1)
      ensures o != Accepted ==> S() == old(S())
    {
      if r >= |reports| {
        return Refused(NotFound);
      }
      var x := reports[r];
      if x.final {
        return Refused(InvalidTransition);
      }
      var summary := BuildSummary(expenses, x.project, projects[x.project], x.year, x.month);
      SummaryInFull(expenses, x.project, projects[x.project], x.year, x.month);
      LocksTheMonth(expenses, r, x.project, x.year, x.month);
      expenses := Locked(expenses, r, ApprovedOfMonth(x.project, x.year, x.month));
      x := x.(summary := summary);
      x := x.(final := true);
      reports := reports[r := x];
      return Accepted;
    }

    // -------------------------------------------------------------- the queue

    /** The oldest waiting run becomes the worker's own. */
    method ClaimNext(ghost w: nat) returns (found: Option<nat>)
      requires w !in workers
      modifies this
      ensures found.None? ==> S() == old(S()) && forall r :: 0 <= r < |runs| ==> runs[r].status != Queued
      ensures found.Some? ==>
                && Enabled(old(S()), ByWorker(ClaimRun(w, found.value))) && S() ==
                    Next(old(S()), ByWorker(ClaimRun(w, found.value)))
                && forall r :: 0 <= r < found.value ==> old(runs)[r].status != Queued
      ensures found.Some? ==>
                var x := old(runs)[found.value];
                x.status == Queued && runs == old(runs)[found.value := x.(status := Running, attempt := x.attempt + 1)]
    {
      found := FirstQueued(runs, 0);
      if found.Some? {
        var r := found.value;
        runs := runs[r := runs[r].(status := Running)];
        runs := runs[r := runs[r].(attempt := runs[r].attempt + 1)];
        workers := workers[w := Work(r, Claimed)];
      }
    }

    /** End of a run: done, back in the queue, or failed for good. */
    method Finish(ghost w: nat, r: nat, error: bool)
      requires Stands(S(), w) && workers[w].run == r
              && (if error then !workers[w].step.Handling? else workers[w].step == Step.Done)
      modifies this`runs, this`workers, this`late
      ensures S() == Next(old(S()), if error then ByWorker(FailRun(w)) else ByWorker(WorkerAction.Finish(w)))
      ensures runs == old(runs)[r := old(runs)[r].(status := Ended(old(runs)[r], error))]
      ensures runs[r].status == if !error then Succeeded else if old(runs)[r].attempt < 3 then Queued else Failed
      ensures workers == if runs[r].status == Failed then old(workers)[w := Work(r, Handling)] else old(workers) - {w}
    {
      if error && workers[w].step.Done? {
        late := late + {r};
      }
      if !error {
        runs := runs[r := runs[r].(status := Succeeded)];
      } else if runs[r].attempt >= MAX_ATTEMPTS {
        runs := runs[r := runs[r].(status := Failed)];
      } else {
        runs := runs[r := runs[r].(status := Queued)];
      }
      if error && runs[r].status == Failed {
        workers := workers[w := workers[w].(step := Handling)];
      } else {
        workers := workers - {w};
      }
    }

    /** Recovers the runs of dead workers, each on its own attempts, in one commit. */
    method RequeueStale(stale: seq<nat>) returns (recovered: nat)
      requires forall i :: 0 <= i < |stale| ==>
              stale[i] < |runs| && runs[stale[i]].status == Running && Unattended(S(), stale[i])
      requires forall i, j :: 0 <= i < j < |stale| ==> stale[i] != stale[j]
      modifies this`runs
      ensures recovered == |stale| && Leads(old(S()), S()) && |runs| == |old(runs)|
      ensures forall r :: 0 <= r < |runs| ==>
                runs[r] == if r in stale then old(runs)[r].(status := if old(runs)[r].attempt < 3 then Queued
                    else Failed)
                           else old(runs)[r]
    {
      LeadsNowhere(S());
      recovered := 0;
      for i := 0 to |stale|
        invariant recovered == i && |runs| == |old(runs)| && Leads(old(S()), S())
        invariant forall r :: 0 <= r < |runs| ==>
                    runs[r] == if r in stale[..i] then old(runs)[r].(status := if old(runs)[r].attempt >= MAX_ATTEMPTS
                        then Failed else Queued) else old(runs)[r]
      {
        var r := stale[i];
        assert r !in stale[..i];
        LeadsOn(old(S()), S(), ByWorker(Requeue(r)));
        if runs[r].attempt >= MAX_ATTEMPTS {
          runs := runs[r := runs[r].(status := Failed)];
        } else {
          runs := runs[r := runs[r].(status := Queued)];
        }
        recovered := recovered + 1;
        assert stale[..i + 1] == stale[..i] + [r];
      }
    }

    // -------------------------------------------------------------- the worker

    /** VALIDATING becomes NEEDS_REVIEW, any other status stays; a deleted expense is an error to the pipeline. */
    method MarkValidated(e: nat) returns (o: Outcome)
      modifies this`expenses
      ensures o == if Live(old(S()), e) then Accepted else Refused(NotFound)
      ensures expenses == if o == Accepted && old(expenses)[e].status == Validating
                          then old(expenses)[e := old(expenses)[e].(status := NeedsReview)] else old(expenses)
    {
      if !Exists(e) {
        return Refused(NotFound);
      }
      if expenses[e].status != Validating {
        return Accepted;
      }
      expenses := expenses[e := expenses[e].(status := NeedsReview)];
      return Accepted;
    }

    /** The gate of the pipeline: the expense goes on to VALIDATING, or there is nothing to do. */
    method EnterPipeline(ghost w: nat, r: nat, e: nat) returns (goesOn: bool)
      requires Starts(S(), w, r, e)
      modifies this`expenses, this`workers
      ensures goesOn == Awaits(old(S()), e)
      ensures S() == if goesOn then Entered(old(S()), w, r, e)
              else old(S()).(workers := old(workers)[w := Work(r, Step.Done)])
    {
      if expenses[e].deleted || (expenses[e].status != Submitted && expenses[e].status != Validating) {
        workers := workers[w := Work(r, Step.Done)];
        return false;
      }
      workers := workers[w := Work(r, Gated(expenses[e].claim))];
      if expenses[e].status == Submitted {
        expenses := expenses[e := expenses[e].(status := Validating)];
      }
      assert expenses == WithStatus(old(expenses), e, Validating);
      return true;
    }

    method AddResults(results: seq<Result>, e: nat, r: nat)
      modifies this`rows
      ensures rows == old(rows) + RowsFor(results, e, r)
    {
      for i := 0 to |results|
        invariant rows == old(rows) + RowsFor(results[..i], e, r)
      {
        rows := rows + [Row(e, r, results[i])];
        assert RowsFor(results[..i + 1], e, r) == RowsFor(results[..i], e, r) + [Row(e, r, results[i])];
      }
      assert results[..|results|] == results;
    }

    /** The reads, the catalogue, and one commit of the results with the move to review. */
    method Judge(ghost w: nat, r: nat, e: nat, around: Surroundings) returns (ghost c: Context)
      requires e < |expenses| && expenses[e].status == Validating && !expenses[e].deleted
      modifies this
      ensures var x := old(expenses)[e].claim;
              c == Context(e, x, BudgetRow(old(S()), x), ApprovedSum(old(expenses), x.project, x.category),
                  FindDuplicates(old(expenses), e, x), around)
      ensures S() == Filed(old(S()), w, r, e, c)
    {
      var x := expenses[e];
      var duplicates := FindDuplicates(expenses, e, x.claim);
      var already := ApprovedSum(expenses, x.claim.project, x.claim.category);
      var ctx := Context(e, x.claim, GetBudget(x.claim), already, duplicates, around);
      AddResults(RunAll(ctx), e, r);
      var _ := MarkValidated(e);
      c := ctx;
      workers, contexts := workers[w := Work(r, Step.Done)], contexts[r := c];
    }

    /**
     The validation pipeline. It either finds nothing to do, or stores the verdict of the whole
     catalogue on the current fields together with the move to NEEDS_REVIEW, or an exception
     leaves it past the gate with nothing stored.
     */
    method RunExpensePipeline(ghost w: nat, r: nat, e: nat, around: Surroundings, fails: bool) returns (raised: bool)
      requires Starts(S(), w, r, e)
      modifies this
      ensures Leads(old(S()), S())
      ensures raised <==> fails && Awaits(old(S()), e)
      ensures S() == if !Awaits(old(S()), e) then old(S()).(workers := old(workers)[w := Work(r, Step.Done)])
                     else if fails then Entered(old(S()), w, r, e)
                     else Filed(old(S()), w, r, e, Judges(old(S()), w, r, e, around))
      ensures Awaits(old(S()), e) && !fails ==>
                && r in contexts && JudgedOn(old(expenses), old(projects), e, around, contexts[r])
                && expenses == old(expenses)[e := old(expenses)[e].(status := NeedsReview)]
                && FiledUnder(old(rows), rows, e, r, RunAll(contexts[r]))
    {
      LeadsNowhere(S());
      var goesOn := EnterPipeline(w, r, e);
      if !goesOn {
        TurnsBack(old(S()), old(S()), w, r, e);
        return false;
      }
      if fails {
        Enters(old(S()), old(S()), w, r, e);
        return true;
      }
      Undisturbed(old(S()), old(S()), w, r, e, around);
      ghost var ctx := Judge(w, r, e, around);
      FiledPastGate(old(S()), w, r, e, ctx);
      JudgesInFields(old(S()), w, r, e, around);
      return false;
    }

    /** A run without attempts left: its expense, if still in flight, goes to a person with a flag. */
    method HandlePermanentFailure(ghost w: nat, r: nat)
      requires Stands(S(), w) && workers[w] == Work(r, Handling) && (runs[r].target.ForExpense? ==>
              runs[r].target.expense < |expenses|)
      modifies this
      ensures S() == Next(old(S()), ByWorker(Handle(w)))
      ensures runs == old(runs) && workers == old(workers) - {w}
      ensures runs[r].target.ForExpense? ==> !Awaits(S(), runs[r].target.expense)
      ensures rows == if runs[r].target.ForExpense? && InFlight(old(expenses)[runs[r].target.expense])
                      then old(rows) + [Row(runs[r].target.expense, r, Result(SYS001, Warn, Nothing))] else old(rows)
      ensures expenses == if runs[r].target.ForExpense?
                             && (old(expenses)[runs[r].target.expense].status == Submitted
                                 || old(expenses)[runs[r].target.expense].status == Validating)
                          then old(expenses)[runs[r].target.expense :=
                                             old(expenses)[runs[r].target.expense].(status := NeedsReview)]
                          else old(expenses)
    {
      if runs[r].target.ForExpense? {
        var e := runs[r].target.expense;
        if expenses[e].status == Submitted || expenses[e].status == Validating {
          expenses := expenses[e := expenses[e].(status := NeedsReview)];
          rows := rows + [Row(e, r, HANDOVER)];
        }
      }
      workers := workers - {w};
    }

    /** The work of a claimed run: an expense pipeline, or a report draft, which touches no table of this model. */
    method RunJob(ghost w: nat, r: nat, around: Surroundings, fails: bool) returns (raised: bool)
      requires HasClaimed(S(), w, r)
      modifies this
      ensures Leads(old(S()), S()) && runs == old(runs) && |expenses| == |old(expenses)|
      ensures raised ==> fails
      ensures w in workers && workers[w].run == r && !workers[w].step.Handling? && (!raised ==>
              workers[w].step == Step.Done)
      ensures workers == old(workers)[w := workers[w]]
      ensures runs[r].target.ForExpense? && !raised ==> !Awaits(S(), runs[r].target.expense)
      ensures !fails && runs[r].target.ForExpense? && Awaits(old(S()), runs[r].target.expense) ==>
                var e := runs[r].target.expense; S() == Filed(old(S()), w, r, e, Judges(old(S()), w, r, e, around))
    {
      if runs[r].target.ForExpense? {
        raised := RunExpensePipeline(w, r, runs[r].target.expense, around, fails);
      } else {
        raised := fails;
        LeadsNowhere(S());
        if !raised {
          LeadsOn(S(), S(), ByWorker(Gate(w)));
          workers := workers[w := Work(r, Step.Done)];
        }
      }
    }

    /** The end of a run, with the handover if it failed for good. */
    method Conclude(ghost w: nat, r: nat, raised: bool)
      requires Stands(S(), w) && workers[w].run == r && !workers[w].step.Handling? && (!raised ==>
              workers[w].step == Step.Done)
      requires runs[r].target.ForExpense? ==> runs[r].target.expense < |expenses|
      requires !raised && runs[r].target.ForExpense? ==> !Awaits(S(), runs[r].target.expense)
      modifies this
      ensures Leads(old(S()), S()) && workers == old(workers) - {w}
      ensures runs == old(runs)[r := old(runs)[r].(status := Ended(old(runs)[r], raised))]
      ensures runs[r].target.ForExpense? && runs[r].status != Queued ==> !Awaits(S(), runs[r].target.expense)
      ensures !raised ==> rows == old(rows) && expenses == old(expenses)
      ensures raised && runs[r].target.ForExpense? && runs[r].status == Failed
              && Awaits(old(S()), runs[r].target.expense) ==>
                rows == old(rows) + [Row(runs[r].target.expense, r, HANDOVER)]
    {
      LeadsNowhere(S());
      LeadsOn(S(), S(), if raised then ByWorker(FailRun(w)) else ByWorker(WorkerAction.Finish(w)));
      Finish(w, r, raised);
      if runs[r].status == Failed {
        LeadsOn(old(S()), S(), ByWorker(Handle(w)));
        HandlePermanentFailure(w, r);
      }
    }

    /**
     One run from its claim to its end, whatever goes wrong on the way short of the worker's death.
     The worker is free again; the run succeeded, waits for another attempt or failed for good;
     and unless it waits, its expense no longer does.
     */
    method Execute(ghost w: nat, r: nat, around: Surroundings, fault: Fault)
      requires HasClaimed(S(), w, r)
      modifies this
      ensures Leads(old(S()), S()) && workers == old(workers) - {w}
      ensures |runs| == |old(runs)| && forall q :: 0 <= q < |runs| && q != r ==> runs[q] == old(runs)[q]
      ensures runs[r].target == old(runs)[r].target && runs[r].attempt == old(runs)[r].attempt
      ensures runs[r].status == Succeeded || runs[r].status == if runs[r].attempt >= MAX_ATTEMPTS then Failed
              else Queued
      ensures runs[r].status != Succeeded ==> runs[r].status == if old(runs)[r].attempt < 3 then Queued else Failed
      ensures fault == NoFault ==> runs[r].status == Succeeded
      ensures fault == InFinish ==> runs[r].status != Succeeded
      ensures runs[r].target.ForExpense? && runs[r].status != Queued ==> !Awaits(S(), runs[r].target.expense)
    {
      var raised := RunJob(w, r, around, fault == InPipeline);
      ghost var s := S();
      Conclude(w, r, raised || fault == InFinish);
      Composed(old(S()), s, S());
    }
  }

  /** The status in which a run ends: succeeded, or by its attempts failed for good or queued again. */
  function Ended(r: Run, error: bool): RunStatus {
    if !error then Succeeded else if r.attempt >= MAX_ATTEMPTS then Failed else Queued
  }

  /** Where an exception strikes: in the pipeline before its commit, or in marking the run finished. */
  datatype Fault = NoFault | InPipeline | InFinish

  /** The worker has just claimed the run, and nobody holds its expense. */
  ghost predicate HasClaimed(s: State, w: nat, r: nat) {
    && w in s.workers && s.workers[w] == Work(r, Claimed) && r < |s.runs|
    && (s.runs[r].target.ForExpense? ==> Starts(s, w, r, s.runs[r].target.expense))
  }

  /** `WHERE status = QUEUED ORDER BY id LIMIT 1`, from position n on. */
  function FirstQueued(runs: seq<Run>, n: nat): (found: Option<nat>)
    requires n <= |runs|
    ensures found.None? ==> forall r :: n <= r < |runs| ==> runs[r].status != Queued
    ensures found.Some? ==> n <= found.value < |runs| && runs[found.value].status == Queued && forall r ::
            n <= r < found.value ==> runs[r].status != Queued
    decreases |runs| - n
  {
    if n == |runs| then None else if runs[n].status == Queued then Some(n) else FirstQueued(runs, n + 1)
  }
}
