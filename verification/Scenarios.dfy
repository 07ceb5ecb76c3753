/**
 Runs that break a documented promise.

 How a FAIL escapes the manager: a worker dies after the results are stored but before its run is
 marked finished; the expense is rejected, corrected and submitted again while the old run waits
 for recovery; the old run then does the work of the new one and files its results under its own
 number, where nobody looks. How an expense gets lost: three workers in a row die on it.
 */
module Scenarios {
  import opened Common
  import opened Rules
  import opened Ledger
  import opened Workflow
  import opened QueueInvariants
  import opened Locks
  import opened Handover
  import opened Effects
  import opened LostExpenses
  import opened Pipeline
  import opened Validation
  import opened Approvals
  import opened BudgetSafety
  import opened Reachable
  import opened Reports
  import opened Calendar
  import Keys

  // ---------------------------------------------------------------- a first attempt

  /** Run r of expense e is waiting, the worker is free and no approval is open. */
  ghost predicate Waiting(s: State, w: nat, r: nat, e: nat) {
    && w !in s.workers && r < |s.runs| && s.runs[r].status == Queued && s.runs[r].target == ForExpense(e)
    && e < |s.expenses| && !s.expenses[e].deleted && s.expenses[e].status == Submitted && s.approving == map[]
  }

  /** The run has stored results on context c and its worker is about to mark it finished. */
  ghost predicate HasStored(s: State, u: State, w: nat, r: nat, e: nat, c: Context)
    requires r < |s.runs| && e < |s.expenses|
  {
    && c.expense == e && c.claim == s.expenses[e].claim && c.budget == BudgetRow(s, c.claim) && c.approved >= 0
    && u.contexts == s.contexts[r := c] && u.rows == s.rows + RowsFor(RunAll(c), e, r)
    && u.reports == s.reports && u.approvals == s.approvals
    && u.expenses == WithStatus(s.expenses, e, NeedsReview) && u.projects == s.projects && u.approving == map[]
    && u.runs == s.runs[r := s.runs[r].(status := Running, attempt := s.runs[r].attempt + 1)]
    && u.workers == s.workers[w := Work(r, Done)]
  }

  lemma PipelineRuns(o: State, s: State, w: nat, r: nat, e: nat, around: Surroundings) returns (u: State, c: Context)
    requires Leads(o, s) && Waiting(s, w, r, e)
    ensures Leads(o, u) && HasStored(s, u, w, r, e, c) && c.around == around
  {
    LeadsOn(o, s, ByWorker(ClaimRun(w, r)));
    u, c := ClaimedRuns(o, s, DoClaimRun(s, w, r), w, r, e, around);
  }

  lemma ClaimedRuns(o: State, s: State, s1: State, w: nat, r: nat, e: nat, around: Surroundings)
      returns (u: State, c: Context)
    requires Leads(o, s1) && Waiting(s, w, r, e)
    requires s1 == s.(runs := s.runs[r := s.runs[r].(status := Running, attempt := s.runs[r].attempt + 1)],
             workers := s.workers[w := Work(r, Claimed)])
    ensures Leads(o, u) && HasStored(s, u, w, r, e, c) && c.around == around
  {
    Undisturbed(o, s1, w, r, e, around);
    c := Judges(s1, w, r, e, around);
    u := Filed(s1, w, r, e, c);
    assert u.workers == s.workers[w := Work(r, Done)];
  }

  // ---------------------------------------------------------------- death, correction, recovery

  /**
   The worker dies at the end of run r; the expense is rejected, edited without a change and
   submitted again; run r is recovered.
   */
  lemma DeathAndResubmission(o: State, s: State, w: nat, r: nat, e: nat) returns (u: State)
    requires Leads(o, s) && s.workers == map[w := Work(r, Done)] && s.approving == map[]
    requires r < |s.runs| && s.runs[r].status == Running && s.runs[r].attempt < MAX_ATTEMPTS
    requires s.runs[r].target == ForExpense(e)
    requires e < |s.expenses| && s.expenses[e].status == NeedsReview && !s.expenses[e].deleted
    requires s.expenses[e].reportId.None?
    ensures Leads(o, u) && Waiting(u, w, r, e) && u.workers == map[] && u.projects == s.projects
    ensures u.expenses == s.expenses[e := s.expenses[e].(status := Submitted, rejectReason := Some(""))]
    ensures |u.runs| == |s.runs| + 1 && u.runs[|s.runs|].target == ForExpense(e) && u.runs[|s.runs|].status == Queued
    ensures u.runs[r].attempt == s.runs[r].attempt
  {
    var s1 := Death(o, s, w, r, e);
    var s2 := Correction(o, s1, e);
    LeadsOn(o, s2, ByWorker(Requeue(r)));
    u := DoRequeue(s2, r);
  }

  lemma Death(o: State, s: State, w: nat, r: nat, e: nat) returns (u: State)
    requires Leads(o, s) && s.workers == map[w := Work(r, Done)] && r < |s.runs|
    ensures Leads(o, u) && u == s.(workers := map[], late := s.late + {r})
  {
    LeadsOn(o, s, ByWorker(Crash(w)));
    u := Leave(NoteLate(s, w), w);
    assert u.workers == map[];
  }

  lemma Correction(o: State, s: State, e: nat) returns (u: State)
    requires Leads(o, s) && s.approving == map[]
    requires e < |s.expenses| && s.expenses[e].status == NeedsReview && !s.expenses[e].deleted
    requires s.expenses[e].reportId.None?
    ensures Leads(o, u) && u.workers == s.workers && u.projects == s.projects && u.approving == map[]
    ensures u.expenses == s.expenses[e := s.expenses[e].(status := Submitted, rejectReason := Some(""))]
    ensures exists key :: u.runs == s.runs + [Run(ForExpense(e), Queued, 0, key)]
  {
    var s1 := DoReject(s, e, "");
    LeadsOn(o, s, ByUser(Reject(e, "")));
    var s2 := DoUpdate(s1, e, s.expenses[e].claim);
    LeadsOn(o, s1, ByUser(Update(e, s.expenses[e].claim)));
    LeadsOn(o, s2, ByUser(Submit(e)));
    u := DoSubmit(s2, e);
    assert u.expenses == s.expenses[e := s.expenses[e].(status := Submitted, rejectReason := Some(""))];
  }

  // ---------------------------------------------------------------- an approval that sees nothing

  lemma ApprovesBlindly(o: State, s: State, e: nat) returns (u: State)
    requires Leads(o, s) && s.approving == map[]
    requires e < |s.expenses| && s.expenses[e].status == NeedsReview && !s.expenses[e].deleted
    requires LatestResults(s, e) == [] && !Over(s, s.expenses[e].claim)
    ensures Leads(o, u) && u == ApprovedState(s, e, false, None)
  {
    ApprovalLeads(s, 0, e, false, None);
    u := ApprovedState(s, e, false, None);
    Composed(o, s, u);
  }

  // ---------------------------------------------------------------- the whole story

  /** No evidence: the first rule fails whatever else is known. */
  lemma NoEvidenceFails(c: Context)
    requires c.around.evidenceCount == 0
    ensures HasFail(RunAll(c))
  {
    var x := Result(EVD001, Fail, Nothing);
    RunAllHas(c, x);
    var i :| 0 <= i < |RunAll(c)| && RunAll(c)[i] == x;
  }

  /** The sum of the approved rows does not see an unapproved one change. */
  lemma SumIgnores(es: seq<Expense>, e: nat, x: Expense, project: nat, category: Category)
    requires e < |es| && es[e].status != Approved && x.status != Approved
    ensures ApprovedSum(es[e := x], project, category) == ApprovedSum(es, project, category)
  {
    TotalAfterChange(es, e, x, ApprovedIn(project, category));
  }

  lemma SameBooks(s: State, u: State, e: nat)
    requires e < |s.expenses| == |u.expenses| && u.expenses == s.expenses[e := u.expenses[e]]
    requires u.projects == s.projects
    requires s.expenses[e].status != Approved && u.expenses[e].status != Approved
    requires u.expenses[e].claim == s.expenses[e].claim
    ensures Over(u, u.expenses[e].claim) <==> Over(s, s.expenses[e].claim)
  {
    SumIgnores(s.expenses, e, u.expenses[e], s.expenses[e].claim.project, s.expenses[e].claim.category);
  }

  lemma SoundIfLed(o: State, s: State)
    requires Sound(o) && Leads(o, s)
    ensures Sound(s)
  {
    var acts :| Path(o, acts) && After(o, acts) == s;
    SoundAfter(o, acts);
  }

  /**
   While an expense is in flight its newest run has stored nothing; once another run has brought it
   to review, nothing is shown.
   */
  lemma NothingIsShown(o: State, s: State, u: State, w: nat, r: nat, e: nat, c: Context, n: nat)
    requires Sound(o) && Leads(o, s) && Leads(o, u) && Waiting(s, w, r, e) && HasStored(s, u, w, r, e, c)
    requires IsLatest(s.runs, e, n) && n != r && s.runs[n].status == Queued
    ensures LatestResults(u, e) == []
  {
    NewestHasNotStored(o, s, e, n);
    NewestIsSilent(o, u, e, n);
  }

  lemma NewestHasNotStored(o: State, s: State, e: nat, n: nat)
    requires Sound(o) && Leads(o, s) && e < |s.expenses| && InFlight(s.expenses[e]) && IsLatest(s.runs, e, n)
    ensures n !in s.contexts
  {
    SoundIfLed(o, s);
    assert LatestFits(s, e, n);
  }

  lemma NewestIsSilent(o: State, s: State, e: nat, r: nat)
    requires Sound(o) && Leads(o, s) && e < |s.expenses| && IsLatest(s.runs, e, r) && s.runs[r].status == Queued
    requires r !in s.contexts
    ensures LatestResults(s, e) == []
  {
    SoundIfLed(o, s);
    assert LatestFits(s, e, r);
    LatestRunIsLatest(s.runs, e, r);
  }

  /** What is stored under a run keeps a FAIL that is stored after it. */
  lemma FailIsFiled(s: State, u: State, e: nat, r: nat, c: Context)
    requires u.rows == s.rows + RowsFor(RunAll(c), e, r) && HasFail(RunAll(c))
    ensures HasFail(ResultsOf(u.rows, e, r))
  {
    ResultsAfterAppend(s.rows, RunAll(c), e, r, e, r);
    FailInLaterPart(ResultsOf(s.rows, e, r), RunAll(c));
  }

  lemma FailInLaterPart(a: seq<Result>, b: seq<Result>)
    requires HasFail(b)
    ensures HasFail(a + b)
  {
    var i :| 0 <= i < |b| && b[i].severity == Fail;
    assert (a + b)[|a| + i] == b[i];
  }

  lemma OldRunDoesTheWork(o: State, s: State, r: nat, e: nat, n: nat, around: Surroundings) returns (u: State)
    requires Sound(o) && Leads(o, s) && Waiting(s, 0, r, e) && IsLatest(s.runs, e, n) && n != r
    requires s.runs[n].status == Queued
    requires !Over(s, s.expenses[e].claim) && around.evidenceCount == 0
    ensures Leads(o, u) && ApprovedUnseen(u, e, s.expenses[e].claim, r)
  {
    var v, c := PipelineRuns(o, s, 0, r, e, around);
    NoEvidenceFails(c);
    NothingIsShown(o, s, v, 0, r, e, c, n);
    SameBooks(s, v, e);
    u := ApprovesBlindly(o, v, e);
    assert LatestResults(u, e) == LatestResults(v, e);
    FailIsFiled(s, v, e, r, c);
  }

  /**
   Approved without override and without any result shown, while the result table holds a FAIL
   under an older run q, judged on exactly these fields.
   */
  ghost predicate ApprovedUnseen(s: State, e: nat, claim: Claim, q: nat) {
    && e < |s.expenses| && s.expenses[e].status == Approved && s.expenses[e].claim == claim
    && |s.approvals| > 0 && s.approvals[|s.approvals| - 1] == Approval(e, false, None)
    && LatestResults(s, e) == [] && HasFail(ResultsOf(s.rows, e, q))
    && q in s.contexts && s.contexts[q].expense == e && s.contexts[q].claim == claim && HasFail(RunAll(s.contexts[q]))
  }

  /**
   From any state at rest in which a submitted expense waits for its first attempt and fits its
   budget, a run leads to its approval without override although a FAIL on exactly its fields is
   stored: its newest run shows nothing.
   */
  lemma FailCanHide(s: State, r: nat, e: nat, around: Surroundings) returns (u: State)
    requires Sound(s) && s.workers == map[] && Waiting(s, 0, r, e) && s.runs[r].attempt == 0
    requires s.expenses[e].reportId.None?
    requires !Over(s, s.expenses[e].claim) && around.evidenceCount == 0
    ensures Leads(s, u) && ApprovedUnseen(u, e, s.expenses[e].claim, r)
  {
    LeadsNowhere(s);
    var s1, c1 := PipelineRuns(s, s, 0, r, e, around);
    var s2 := DeathAndResubmission(s, s1, 0, r, e);
    assert s2.expenses == s.expenses[e := s2.expenses[e]];
    SameBooks(s, s2, e);
    u := OldRunDoesTheWork(s, s2, r, e, |s.runs|, around);
  }

  // ---------------------------------------------------------------- from the empty database

  /** 1 January 2024 as a day number. */
  const NEW_YEAR := 738886

  const BUDGETS := [Budget(Material, 100)]

  function ClaimOf(amount: Won): Claim {
    Claim(0, Material, None, amount, NEW_YEAR)
  }

  function DraftOf(amount: Won): Expense {
    Expense(ClaimOf(amount), Draft, None, false, None)
  }

  lemma FirstExpense(amount: Won) returns (u: State)
    ensures Leads(INIT, u) && u == INIT.(projects := [BUDGETS], expenses := [DraftOf(amount)])
  {
    LeadsNowhere(INIT);
    LeadsOn(INIT, INIT, ByUser(CreateProject(BUDGETS)));
    var s := INIT.(projects := [BUDGETS]);
    assert UserNext(INIT, CreateProject(BUDGETS)).projects == [BUDGETS];
    LeadsOn(INIT, s, ByUser(CreateExpense(ClaimOf(amount))));
    u := s.(expenses := [DraftOf(amount)]);
    assert UserNext(s, CreateExpense(ClaimOf(amount))).expenses == u.expenses;
  }

  lemma {:induction false} NothingApproved(es: seq<Expense>, project: nat, category: Category)
    requires forall e :: 0 <= e < |es| ==> es[e].status != Approved
    ensures ApprovedSum(es, project, category) == 0
  {
    if es != [] {
      NothingApproved(es[..|es| - 1], project, category);
    }
  }

  /** One project with a budget of 100, one expense, submitted once. */
  ghost predicate Fresh(s: State, amount: Won) {
    && s.workers == map[] && Waiting(s, 0, 0, 0) && |s.runs| == 1 && s.runs[0].attempt == 0
    && s.projects == [BUDGETS] && s.expenses == [DraftOf(amount).(status := Submitted)]
    && s.rows == [] && s.reports == []
  }

  lemma FirstSubmission(amount: Won) returns (u: State)
    ensures Leads(INIT, u) && Fresh(u, amount)
  {
    var s := FirstExpense(amount);
    LeadsOn(INIT, s, ByUser(Submit(0)));
    u := DoSubmit(s, 0);
  }

  /** With nothing approved a claim is over a budget of 100 exactly if it is larger. */
  lemma OverOneHundred(s: State, amount: Won)
    requires s.projects == [BUDGETS] && forall e :: 0 <= e < |s.expenses| ==> s.expenses[e].status != Approved
    ensures BudgetRow(s, ClaimOf(amount)) == Some(100) && (Over(s, ClaimOf(amount)) <==> amount > 100)
  {
    NothingApproved(s.expenses, 0, Material);
    assert BUDGETS[|BUDGETS| - 1] == Budget(Material, 100);
  }

  lemma FreshFailCanHide(s: State, around: Surroundings) returns (u: State)
    requires Leads(INIT, s) && Fresh(s, 10) && around.evidenceCount == 0
    ensures Leads(s, u) && ApprovedUnseen(u, 0, ClaimOf(10), 0)
  {
    InitIsSound();
    SoundIfLed(INIT, s);
    OverOneHundred(s, 10);
    u := FailCanHide(s, 0, 0, around);
  }

  /** An approval that is shown nothing although a FAIL is stored can be reached. */
  lemma FailCanHideFromTheStart(around: Surroundings) returns (u: State)
    requires around.evidenceCount == 0
    ensures Leads(INIT, u) && ApprovedUnseen(u, 0, ClaimOf(10), 0)
  {
    var s := FirstSubmission(10);
    u := FreshFailCanHide(s, around);
    Composed(INIT, s, u);
  }

  /** Three silent deaths in a row lose the first expense of a fresh system. */
  lemma LossFromTheStart() returns (u: State)
    ensures Leads(INIT, u) && Stranded(u, 0)
  {
    var s := FirstSubmission(10);
    assert IsLatest(s.runs, 0, 0);
    var acts := TimeoutsStrand(s, 0, 0, 0);
    u := After(s, acts);
    ComposedBy(INIT, s, acts);
  }

  /** A claimed run fails at once and is queued again: only its attempt has changed. */
  lemma FailedRound(o: State, s: State, w: nat, r: nat) returns (u: State)
    requires Leads(o, s) && w !in s.workers && r < |s.runs| && s.runs[r].status == Queued
    requires s.runs[r].attempt + 1 < MAX_ATTEMPTS
    ensures Leads(o, u) && u == s.(runs := s.runs[r := s.runs[r].(attempt := s.runs[r].attempt + 1)])
  {
    var s1 := DoClaimRun(s, w, r);
    LeadsOn(o, s, ByWorker(ClaimRun(w, r)));
    LeadsOn(o, s1, ByWorker(FailRun(w)));
    u := DoFailRun(s1, w);
    assert u.workers == s.workers;
  }

  /** Two failed attempts, a third, and a death just before the handover lose it as well. */
  lemma CrashLossFromTheStart() returns (u: State)
    ensures Leads(INIT, u) && Stranded(u, 0)
  {
    InitIsSound();
    var s := FirstSubmission(10);
    var s1 := FailedRound(INIT, s, 0, 0);
    var s2 := FailedRound(INIT, s1, 0, 0);
    LeadsOn(INIT, s2, ByWorker(ClaimRun(0, 0)));
    var s3 := DoClaimRun(s2, 0, 0);
    SoundIfLed(INIT, s3);
    var acts := CrashStrands(s3, 0, 0, 0);
    u := After(s3, acts);
    ComposedBy(INIT, s3, acts);
  }

  /** An expense under review with a budget FAIL among the results shown can be reached. */
  lemma BudgetFailFromTheStart(around: Surroundings) returns (u: State)
    ensures Leads(INIT, u) && |u.expenses| == 1 && u.expenses[0].status == NeedsReview
            && BudgetFailed(LatestResults(u, 0))
  {
    var s := FirstSubmission(200);
    OverOneHundred(s, 200);
    var c;
    u, c := PipelineRuns(INIT, s, 0, 0, 0, around);
    assert IsLatest(u.runs, 0, 0);
    LatestRunIsLatest(u.runs, 0, 0);
    FirstResults(s.rows, RunAll(c), 0, 0);
    BudgetFailIsShown(c);
  }

  lemma BudgetFailIsShown(c: Context)
    requires c.budget == Some(100) && c.approved >= 0 && c.claim.amount == 200
    ensures BudgetFailed(RunAll(c))
  {
    BudgetVerdict(c);
    var x :| x in RunAll(c) && x.code == BGT001 && x.severity == Fail;
    var i :| 0 <= i < |RunAll(c)| && RunAll(c)[i] == x;
  }

  // ---------------------------------------------------------------- too late for its report

  /** The report of January 2024 is drawn up and finalised while the only expense is still under review. */
  lemma ReportOfJanuary(o: State, s: State) returns (u: State)
    requires Leads(o, s) && s.projects == [BUDGETS] && s.reports == []
    requires forall e :: 0 <= e < |s.expenses| ==> s.expenses[e].status != Approved
    ensures Leads(o, u) && u.expenses == s.expenses && u.projects == s.projects && u.approving == s.approving
    ensures |u.reports| == 1 && u.reports[0].final && SamePeriod(u.reports[0], 0, 2024, 1)
  {
    LeadsOn(o, s, ByUser(CreateReport(0, 2024, 1)));
    u := Finalised(o, DoCreateReport(s, 0, 2024, 1));
  }

  lemma Finalised(o: State, s: State) returns (u: State)
    requires Leads(o, s) && s.projects == [BUDGETS] && |s.reports| == 1 && !s.reports[0].final
    requires SamePeriod(s.reports[0], 0, 2024, 1) && forall e :: 0 <= e < |s.expenses| ==>
            s.expenses[e].status != Approved
    ensures Leads(o, u) && u.expenses == s.expenses && u.projects == s.projects && u.approving == s.approving
    ensures |u.reports| == 1 && u.reports[0].final && SamePeriod(u.reports[0], 0, 2024, 1)
  {
    LeadsOn(o, s, ByUser(Finalize(0)));
    u := DoFinalize(s, 0);
    assert u.expenses == s.expenses;
  }

  lemma NewYearIsInJanuary()
    ensures IsMonth(2024, 1) && InMonth(NEW_YEAR, 2024, 1)
  {
  }

  /** An expense that is approved after its month became final, and so is in no report, can be reached. */
  lemma LateApprovalFromTheStart(around: Surroundings) returns (u: State)
    ensures Leads(INIT, u) && MissedBy(u, 0, 0)
  {
    var s := FirstSubmission(10);
    var s1, c := PipelineRuns(INIT, s, 0, 0, 0, around);
    var s2 := ReportOfJanuary(INIT, s1);
    OverOneHundred(s2, 10);
    assert Some("seen").value[0] == 's';
    ApprovalLeads(s2, 0, 0, true, Some("seen"));
    u := ApprovedState(s2, 0, HasFail(LatestResults(s2, 0)) && true, Some("seen"));
    Composed(INIT, s2, u);
    NewYearIsInJanuary();
  }
}
