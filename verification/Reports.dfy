/** A final report stays true: its figures are those of the expenses it locked, for ever. */
module Reports {
  import opened Common
  import opened Rules
  import opened Ledger
  import opened Calendar
  import opened Workflow
  import opened QueueInvariants
  import opened Locks
  import opened Handover
  import opened Effects
  import opened Approvals
  import opened BudgetSafety

  predicate ReportFits(s: State, r: Report) {
    r.project < |s.projects| && IsMonth(r.year, r.month)
  }

  ghost predicate OnePerPeriod(rs: seq<Report>) {
    forall i, j :: 0 <= i < j < |rs| ==> !SamePeriod(rs[j], rs[i].project, rs[i].year, rs[i].month)
  }

  /** A locked expense is an approved one of its report's own project and month, and the report is final. */
  predicate LockFits(rs: seq<Report>, e: Expense) {
    e.reportId.Some? ==>
      var r := e.reportId.value;
      && r < |rs| && rs[r].final && IsMonth(rs[r].year, rs[r].month)
      && e.status == Approved && !e.deleted
      && e.claim.project == rs[r].project && InMonth(e.claim.spentAt, rs[r].year, rs[r].month)
  }

  /** The figures of a final report are those of the expenses it has locked. */
  predicate FiguresTrue(es: seq<Expense>, rs: seq<Report>, r: nat)
    requires r < |rs|
  {
    rs[r].final ==>
            rs[r].summary.monthApproved == Total(es, LockedBy(r))
            && rs[r].summary.approvedCount == Count(es, LockedBy(r))
  }

  predicate NothingNegative(x: Summary) {
    && (forall i :: 0 <= i < |x.lines| ==> x.lines[i].remaining >= 0)
    && x.remaining >= 0 && x.remaining == x.budget - x.cumulative
  }

  ghost predicate ReportsSound(s: State) {
    && (forall r :: 0 <= r < |s.reports| ==> ReportFits(s, s.reports[r]))
    && OnePerPeriod(s.reports)
    && (forall e :: 0 <= e < |s.expenses| ==> LockFits(s.reports, s.expenses[e]))
    && (forall r: nat :: r < |s.reports| ==> FiguresTrue(s.expenses, s.reports, r))
    && (forall r :: 0 <= r < |s.reports| ==> NothingNegative(s.reports[r].summary))
  }

  // ---------------------------------------------------------------- what a summary says

  lemma {:induction false} NarrowerTotal(es: seq<Expense>, p: Query, q: Query)
    requires forall i :: 0 <= i < |es| && Matches(es[i], p) ==> Matches(es[i], q)
    ensures Total(es, p) <= Total(es, q)
  {
    if es != [] {
      NarrowerTotal(es[..|es| - 1], p, q);
    }
  }

  lemma RemainingIsNotNegative(s: State, project: nat, k: nat, start: int, end: int)
    requires BooksSound(s) && project < |s.projects| && k < |s.projects[project]|
    ensures LineFor(s.expenses, project, s.projects[project][k], start, end).remaining >= 0
  {
    var b := s.projects[project][k];
    BudgetOfFinds(s.projects[project], k);
    NarrowerTotal(s.expenses, Where(Approved, project, Some(b.category), None, Some(end)),
        ApprovedIn(project, b.category));
    assert ApprovedSum(s.expenses, project, b.category) <= Ceiling(s, project, b.category);
  }

  lemma {:induction false} RemainingSumIsNotNegative(ls: seq<CategoryLine>)
    requires forall i :: 0 <= i < |ls| ==> ls[i].remaining >= 0
    ensures SumRemaining(ls) >= 0
  {
    if ls != [] {
      RemainingSumIsNotNegative(ls[..|ls| - 1]);
    }
  }

  /** No summary built in a state within its budgets shows a negative remainder. */
  lemma SummaryIsNotNegative(s: State, project: nat, year: nat, month: nat)
    requires BooksSound(s) && project < |s.projects| && IsMonth(year, month)
    ensures NothingNegative(BuildSummary(s.expenses, project, s.projects[project], year, month))
  {
    var (start, end) := MonthRange(year, month);
    var bs := s.projects[project];
    var lines := LinesFor(s.expenses, project, bs, start, end);
    forall i | 0 <= i < |lines| ensures lines[i].remaining >= 0 {
      RemainingIsNotNegative(s, project, i, start, end);
    }
    RemainingSumIsNotNegative(lines);
    RemainingColumn(s.expenses, project, bs, start, end);
  }

  /** The month total of a summary covers every approved expense of the month, whatever its category. */
  lemma SummaryCoversMonth(s: State, project: nat, year: nat, month: nat)
    requires BooksSound(s) && OnlyDraftsDeleted(s.expenses) && project < |s.projects| && IsMonth(year, month)
    ensures var x := BuildSummary(s.expenses, project, s.projects[project], year, month);
            var q := ApprovedOfMonth(project, year, month);
            x.monthApproved == Total(s.expenses, q) && x.approvedCount == Count(s.expenses, q)
  {
    var (start, end) := MonthRange(year, month);
    forall e: nat | e < |s.expenses| && s.expenses[e].status == Approved && s.expenses[e].claim.project == project
      ensures BudgetOf(s.projects[project], s.expenses[e].claim.category).Some?
    {
      ApprovedHasBudget(s, e);
    }
    MonthTotalIsAll(s.expenses, project, s.projects[project], start, end);
  }

  // ---------------------------------------------------------------- steps other than the finalisation

  ghost predicate LocksStay(es: seq<Expense>, fs: seq<Expense>) {
    && |es| <= |fs|
    && (forall i :: 0 <= i < |es| ==> fs[i].reportId == es[i].reportId)
    && (forall i :: |es| <= i < |fs| ==> fs[i].reportId.None?)
  }

  lemma UserLeavesLocks(s: State, a: UserAction)
    requires LocksSound(s) && UserEnabled(s, a) && !a.Finalize?
    ensures LocksStay(s.expenses, UserNext(s, a).expenses)
  {
    if a.CommitApproval? {
    } else if IsApprovalStep(a) {
      assert UserNext(s, a).expenses == s.expenses;
    } else {
    }
  }

  lemma StepLeavesLocks(s: State, a: Action)
    requires LocksSound(s) && Enabled(s, a) && !(a.ByUser? && a.user.Finalize?)
    ensures LocksStay(s.expenses, Next(s, a).expenses)
  {
    match a
    case ByUser(u) => UserLeavesLocks(s, u);
    case ByWorker(v) => WorkerRow(s, v);
  }

  /** Only a report's creation and finalisation write the report table. */
  lemma ReportsGrow(s: State, a: Action)
    requires Enabled(s, a) && !(a.ByUser? && (a.user.Finalize? || a.user.CreateReport?))
    ensures Next(s, a).reports == s.reports
  {
    match a
    case ByUser(u) => if IsApprovalStep(u) { } else { }
    case ByWorker(v) => WorkerLeavesRequests(s, v);
  }

  lemma LockedRowsStay(es: seq<Expense>, fs: seq<Expense>, rs: seq<Report>, r: nat)
    requires RowsStep(es, fs) && LocksStay(es, fs) && r < |rs| && FiguresTrue(es, rs, r)
    requires forall e :: 0 <= e < |es| ==> LockFits(rs, es[e])
    ensures FiguresTrue(fs, rs, r)
  {
    var q := LockedBy(r);
    SameRowsSameTotal(es, q, fs, q);
  }

  lemma LockFitsStays(es: seq<Expense>, fs: seq<Expense>, rs: seq<Report>)
    requires RowsStep(es, fs) && LocksStay(es, fs) && forall e :: 0 <= e < |es| ==> LockFits(rs, es[e])
    ensures forall e :: 0 <= e < |fs| ==> LockFits(rs, fs[e])
  {
  }

  lemma OtherStepKeepsReports(s: State, a: Action)
    requires LocksSound(s) && ProjectsSound(s) && ReportsSound(s) && Enabled(s, a)
            && !(a.ByUser? && (a.user.Finalize? || a.user.CreateReport?))
    ensures ReportsSound(Next(s, a))
  {
    var u := Next(s, a);
    StepRows(s, a);
    StepLeavesLocks(s, a);
    ReportsGrow(s, a);
    ProjectsStep(s, a);
    LockFitsStays(s.expenses, u.expenses, s.reports);
    forall r: nat | r < |u.reports| ensures FiguresTrue(u.expenses, u.reports, r) {
      LockedRowsStay(s.expenses, u.expenses, s.reports, r);
    }
  }

  lemma LockFitsInMore(rs: seq<Report>, x: Report, e: Expense)
    requires LockFits(rs, e)
    ensures LockFits(rs + [x], e)
  {
  }

  lemma CreateKeepsReports(s: State, project: nat, year: nat, month: nat)
    requires BooksSound(s) && ReportsSound(s) && UserEnabled(s, CreateReport(project, year, month))
    ensures ReportsSound(DoCreateReport(s, project, year, month))
  {
    var u := DoCreateReport(s, project, year, month);
    SummaryIsNotNegative(s, project, year, month);
    forall e: nat | e < |u.expenses| ensures LockFits(u.reports, u.expenses[e]) {
      LockFitsInMore(s.reports, u.reports[|s.reports|], s.expenses[e]);
    }
    forall r: nat | r < |u.reports| ensures FiguresTrue(u.expenses, u.reports, r) {
      assert r < |s.reports| ==> FiguresTrue(s.expenses, s.reports, r);
    }
  }

  // ---------------------------------------------------------------- the finalisation

  /** A day of a project falls into the period of one report at most. */
  lemma OneReportOfDay(s: State, r: nat, q: nat, day: int)
    requires ReportsSound(s) && r < |s.reports| && q < |s.reports| && s.reports[r].project == s.reports[q].project
    requires InMonth(day, s.reports[r].year, s.reports[r].month) && InMonth(day, s.reports[q].year, s.reports[q].month)
    ensures r == q
  {
    MonthsAreDisjoint(day, s.reports[r].year, s.reports[r].month, s.reports[q].year, s.reports[q].month);
    assert SamePeriod(s.reports[q], s.reports[r].project, s.reports[r].year, s.reports[r].month);
    assert SamePeriod(s.reports[r], s.reports[q].project, s.reports[q].year, s.reports[q].month);
  }

  /** Whatever matches the month of an open report is not locked yet: one report per period, months disjoint. */
  lemma MonthIsUnlocked(s: State, r: nat, e: nat)
    requires ReportsSound(s) && UserEnabled(s, Finalize(r)) && e < |s.expenses|
    requires Matches(s.expenses[e], ApprovedOfMonth(s.reports[r].project, s.reports[r].year, s.reports[r].month))
    ensures s.expenses[e].reportId.None?
  {
    var x := s.expenses[e];
    if x.reportId.Some? {
      assert LockFits(s.reports, x);
      var q := x.reportId.value;
      OneReportOfDay(s, r, q, x.claim.spentAt);
    }
  }

  lemma FinalFiguresTrue(s: State, r: nat)
    requires BooksSound(s) && OnlyDraftsDeleted(s.expenses) && ReportsSound(s) && UserEnabled(s, Finalize(r))
    ensures var u := DoFinalize(s, r); r < |u.reports| && u.reports[r].final && FiguresTrue(u.expenses, u.reports, r)
  {
    var u := DoFinalize(s, r);
    var x := s.reports[r];
    var q := ApprovedOfMonth(x.project, x.year, x.month);
    SummaryCoversMonth(s, x.project, x.year, x.month);
    forall e: nat | e < |s.expenses| ensures Matches(s.expenses[e], q) <==> Matches(u.expenses[e], LockedBy(r)) {
      assert LockFits(s.reports, s.expenses[e]);
      if Matches(s.expenses[e], q) {
        MonthIsUnlocked(s, r, e);
      }
    }
    SameRowsSameTotal(s.expenses, q, u.expenses, LockedBy(r));
  }

  lemma OtherFiguresStay(s: State, r: nat, q: nat)
    requires ReportsSound(s) && UserEnabled(s, Finalize(r)) && q < |s.reports| && q != r
    ensures q < |DoFinalize(s, r).reports| && FiguresTrue(DoFinalize(s, r).expenses, DoFinalize(s, r).reports, q)
  {
    var u := DoFinalize(s, r);
    assert FiguresTrue(s.expenses, s.reports, q);
    SameRowsSameTotal(s.expenses, LockedBy(q), u.expenses, LockedBy(q));
  }

  lemma FinalizeLocksFit(s: State, r: nat, e: nat)
    requires ReportsSound(s) && UserEnabled(s, Finalize(r)) && e < |s.expenses|
    ensures LockFits(DoFinalize(s, r).reports, DoFinalize(s, r).expenses[e])
  {
  }

  lemma FinalizeKeepsReports(s: State, r: nat)
    requires BooksSound(s) && OnlyDraftsDeleted(s.expenses) && ReportsSound(s) && UserEnabled(s, Finalize(r))
    ensures ReportsSound(DoFinalize(s, r))
  {
    var u := DoFinalize(s, r);
    SummaryIsNotNegative(s, s.reports[r].project, s.reports[r].year, s.reports[r].month);
    forall e: nat | e < |u.expenses| ensures LockFits(u.reports, u.expenses[e]) {
      FinalizeLocksFit(s, r, e);
    }
    forall q: nat | q < |u.reports| ensures FiguresTrue(u.expenses, u.reports, q) {
      if q == r {
        FinalFiguresTrue(s, r);
      } else {
        OtherFiguresStay(s, r, q);
      }
    }
  }

  lemma ReportsStep(s: State, a: Action)
    requires LocksSound(s) && CycleSound(s) && BooksSound(s) && ReportsSound(s) && Enabled(s, a)
    ensures ReportsSound(Next(s, a))
  {
    if a.ByUser? && a.user.Finalize? {
      FinalizeKeepsReports(s, a.user.report);
    } else if a.ByUser? && a.user.CreateReport? {
      CreateKeepsReports(s, a.user.project, a.user.year, a.user.month);
    } else {
      OtherStepKeepsReports(s, a);
    }
  }

  // ---------------------------------------------------------------- for ever

  /** No step changes a final report. */
  lemma FinalReportStays(s: State, a: Action, r: nat)
    requires Enabled(s, a) && r < |s.reports| && s.reports[r].final
    ensures r < |Next(s, a).reports| && Next(s, a).reports[r] == s.reports[r]
  {
    if a.ByUser? && (a.user.Finalize? || a.user.CreateReport?) {
    } else {
      ReportsGrow(s, a);
    }
  }

  /** The finalisation locks every approved expense of the month. */
  lemma FinalizeLocksTheMonth(s: State, r: nat, e: nat)
    requires ReportsSound(s) && UserEnabled(s, Finalize(r)) && e < |s.expenses|
    requires Matches(s.expenses[e], ApprovedOfMonth(s.reports[r].project, s.reports[r].year, s.reports[r].month))
    ensures DoFinalize(s, r).expenses[e] == s.expenses[e].(reportId := Some(r))
  {
    MonthIsUnlocked(s, r, e);
  }

  lemma FinalizeSkipsLate(s: State, q: nat, r: nat, e: nat)
    requires ReportsSound(s) && UserEnabled(s, Finalize(q)) && r < |s.reports| && s.reports[r].final
    requires e < |s.expenses| && s.expenses[e].claim.project == s.reports[r].project
    requires InMonth(s.expenses[e].claim.spentAt, s.reports[r].year, s.reports[r].month)
    ensures DoFinalize(s, q).expenses[e] == s.expenses[e]
  {
    var x := s.expenses[e];
    if Matches(x, ApprovedOfMonth(s.reports[q].project, s.reports[q].year, s.reports[q].month)) {
      OneReportOfDay(s, r, q, x.claim.spentAt);
    }
  }

  /** The expense came too late for the final report r of its own month: approved, and in no report. */
  predicate MissedBy(s: State, e: nat, r: nat) {
    && r < |s.reports| && s.reports[r].final && IsMonth(s.reports[r].year, s.reports[r].month)
    && e < |s.expenses| && s.expenses[e].status == Approved && s.expenses[e].reportId.None?
    && s.expenses[e].claim.project == s.reports[r].project
        && InMonth(s.expenses[e].claim.spentAt, s.reports[r].year, s.reports[r].month)
  }

  /** An expense approved after its month became final stays out of every report. */
  lemma MissedStaysMissed(s: State, a: Action, e: nat, r: nat)
    requires LocksSound(s) && ReportsSound(s) && Enabled(s, a) && MissedBy(s, e, r)
    ensures MissedBy(Next(s, a), e, r)
  {
    FinalReportStays(s, a, r);
    StepRows(s, a);
    if a.ByUser? && a.user.Finalize? {
      FinalizeSkipsLate(s, a.user.report, r, e);
    } else {
      StepLeavesLocks(s, a);
    }
  }

  /** The expense is an approved one of the report's project and month. */
  predicate OfReport(s: State, e: nat, r: nat) {
    && e < |s.expenses| && r < |s.reports| && IsMonth(s.reports[r].year, s.reports[r].month)
    && Matches(s.expenses[e], ApprovedOfMonth(s.reports[r].project, s.reports[r].year, s.reports[r].month))
  }

  /** An approval committed after the report of its month became final is missed by it. */
  lemma LateCommitIsMissed(s: State, t: nat, r: nat)
    requires LocksSound(s) && ReportsSound(s) && UserEnabled(s, CommitApproval(t)) && Commits(s, t)
    requires r < |s.reports| && s.reports[r].final && OfReport(DoCommitApproval(s, t), s.approving[t].expense, r)
    ensures MissedBy(DoCommitApproval(s, t), s.approving[t].expense, r)
  {
    assert LockedRowFits(s, s.approving[t]);
    assert LockFits(s.reports, s.expenses[s.approving[t].expense]);
  }

  predicate InReport(s: State, e: nat, r: nat) {
    e < |s.expenses| && s.expenses[e].reportId == Some(r)
  }

  /** The finalisation takes in exactly the approved expenses of its month. */
  lemma FinalizeTakesExactly(s: State, r: nat, e: nat)
    requires ReportsSound(s) && UserEnabled(s, Finalize(r))
    ensures InReport(DoFinalize(s, r), e, r) <==> OfReport(s, e, r)
  {
    if e < |s.expenses| {
      assert LockFits(s.reports, s.expenses[e]);
      if OfReport(s, e, r) {
        MonthIsUnlocked(s, r, e);
      }
    }
  }

  lemma OtherFinalizeTakesNone(s: State, q: nat, r: nat, e: nat)
    requires UserEnabled(s, Finalize(q)) && r < |s.reports| && s.reports[r].final
    ensures InReport(DoFinalize(s, q), e, r) <==> InReport(s, e, r)
  {
  }

  /** A final report neither takes in nor lets go of an expense. */
  lemma FinalReportKeepsExpenses(s: State, a: Action, r: nat, e: nat)
    requires LocksSound(s) && Enabled(s, a) && r < |s.reports| && s.reports[r].final
    ensures InReport(Next(s, a), e, r) <==> InReport(s, e, r)
  {
    if a.ByUser? && a.user.Finalize? {
      OtherFinalizeTakesNone(s, a.user.report, r, e);
    } else {
      StepLeavesLocks(s, a);
    }
  }

  /** An approved expense of a final report's month is in that report or missed by it. */
  lemma InOrMissed(s: State, e: nat, r: nat)
    requires ReportsSound(s) && r < |s.reports| && s.reports[r].final && OfReport(s, e, r)
    ensures MissedBy(s, e, r) <==> !InReport(s, e, r)
  {
    var x := s.expenses[e];
    assert LockFits(s.reports, x);
    if x.reportId.Some? {
      OneReportOfDay(s, r, x.reportId.value, x.claim.spentAt);
    }
  }
}
