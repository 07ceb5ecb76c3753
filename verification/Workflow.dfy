/**
 The committed database and everything that can happen to it, one transaction at a time.
 An approval is cut at its lock points, a pipeline at its reads and commits, so that any number
 of them interleave; a worker may fail or die between any two of its steps.
 */
module Workflow {
  import opened Common
  import opened Rules
  import opened Ledger
  import opened Calendar
  import Keys

  const MAX_ATTEMPTS := 3

  datatype Target = ForExpense(expense: nat) | ForReport(report: nat)

  datatype RunStatus = Queued | Running | Succeeded | Failed

  datatype Run = Run(target: Target, status: RunStatus, attempt: nat, key: string)

  /** A stored rule result. */
  datatype Row = Row(expense: nat, run: nat, result: Result)

  datatype Approval =
    | Approval(expense: nat, override: bool, comment: Option<string>)
    | Rejection(expense: nat, reason: string)

  datatype Report = Report(project: nat, year: nat, month: nat, final: bool, summary: Summary)

  /** Where an open approval stands; the later stages hold the budget row. */
  datatype Stage =
    | Opened
    | Checked(fails: bool)
    | BudgetHeld(fails: bool, budget: nat)
    | Summed(fails: bool, budget: nat, already: nat)

  /** An approval transaction; while it is open it holds its expense row. */
  datatype Approving = Approving(expense: nat, override: bool, comment: Option<string>, stage: Stage)

  /** Where a worker stands with its run. */
  datatype Step =
    | Claimed
    | Gated(claim: Claim)
    | DuplicatesRead(claim: Claim, duplicates: seq<nat>)
    | BudgetRead(claim: Claim, duplicates: seq<nat>, budget: Option<nat>, approved: nat)
    | Done
    | Handling

  datatype Work = Work(run: nat, step: Step)

  /**
   Tables are append-only sequences, so a row's id is its position. The last two fields are
   history, not data: runs whose worker failed or died after the pipeline had returned but before
   the run was marked finished, and the context behind each stored result set.
   */
  datatype State = State(
    projects: seq<seq<Budget>>,
    expenses: seq<Expense>,
    runs: seq<Run>,
    rows: seq<Row>,
    approvals: seq<Approval>,
    reports: seq<Report>,
    approving: map<nat, Approving>,
    workers: map<nat, Work>,
    late: set<nat>,
    contexts: map<nat, Context>)

  const INIT := State([], [], [], [], [], [], map[], map[], {}, map[])

  // ---------------------------------------------------------------- reading the tables

  predicate InFlight(e: Expense) {
    e.status == Submitted || e.status == Validating
  }

  /** `max(id)` of an expense's runs. */
  function LatestRun(runs: seq<Run>, e: nat): Option<nat> {
    if runs == [] then None
    else if runs[|runs| - 1].target == ForExpense(e) then Some(|runs| - 1)
    else LatestRun(runs[..|runs| - 1], e)
  }

  /** `count(*)` of an expense's runs. */
  function RunCount(runs: seq<Run>, e: nat): nat {
    if runs == [] then 0
    else RunCount(runs[..|runs| - 1], e) + if runs[|runs| - 1].target == ForExpense(e) then 1 else 0
  }

  /** Results stored for an expense under a run, by id. */
  function ResultsOf(rows: seq<Row>, e: nat, r: nat): seq<Result> {
    if rows == [] then []
    else
      var last := rows[|rows| - 1];
      ResultsOf(rows[..|rows| - 1], e, r) + if last.expense == e && last.run == r then [last.result] else []
  }

  /** Results of the most recent run; older ones are history. */
  function LatestResults(s: State, e: nat): seq<Result> {
    match LatestRun(s.runs, e)
    case None => []
    case Some(r) => ResultsOf(s.rows, e, r)
  }

  /** Another expense with the same project, business number, amount and day, neither rejected nor deleted. */
  predicate IsDuplicate(es: seq<Expense>, e: nat, claim: Claim, d: nat)
    requires d < |es|
  {
    && d != e
    && es[d].claim.project == claim.project && es[d].claim.bizNo == claim.bizNo
    && es[d].claim.amount == claim.amount && es[d].claim.spentAt == claim.spentAt
    && !es[d].deleted && es[d].status != Rejected
  }

  function DuplicatesUpTo(es: seq<Expense>, e: nat, claim: Claim, n: nat): (ds: seq<nat>)
    requires n <= |es|
    ensures forall d: nat :: d in ds <==> d < n && IsDuplicate(es, e, claim, d)
  {
    if n == 0 then []
    else
      var rest := DuplicatesUpTo(es, e, claim, n - 1);
      if IsDuplicate(es, e, claim, n - 1) then rest + [n - 1] else rest
  }

  function FindDuplicates(es: seq<Expense>, e: nat, claim: Claim): seq<nat> {
    if !Truthy(claim.bizNo) then [] else DuplicatesUpTo(es, e, claim, |es|)
  }

  /** No open approval holds the expense row. */
  predicate RowFree(s: State, e: nat) {
    forall t :: t in s.approving ==> s.approving[t].expense != e
  }

  predicate HoldsBudget(a: Approving) {
    a.stage.BudgetHeld? || a.stage.Summed?
  }

  /** No open approval holds the budget row of the project and category. */
  predicate BudgetFree(s: State, project: nat, category: Category) {
    forall t :: t in s.approving && HoldsBudget(s.approving[t]) && s.approving[t].expense < |s.expenses| ==>
      var c := s.expenses[s.approving[t].expense].claim;
      c.project != project || c.category != category
  }

  predicate Unattended(s: State, r: nat) {
    forall w :: w in s.workers ==> s.workers[w].run != r
  }

  /** The row the manager finds when the pipeline gave up. */
  const HANDOVER := Result(SYS001, Warn, Nothing)

  // ---------------------------------------------------------------- what can happen

  /** Requests, each a transaction or a step of an approval. */
  datatype UserAction =
    | CreateProject(budgets: seq<Budget>)
    | CreateExpense(claim: Claim)
    | Submit(e: nat)
    | Update(e: nat, claim: Claim)
    | Reject(e: nat, reason: string)
    | Delete(e: nat)
    | OpenApproval(t: nat, e: nat, override: bool, comment: Option<string>)
    | ReadResults(t: nat)
    | LockBudget(t: nat)
    | SumApproved(t: nat)
    | CommitApproval(t: nat)
    | AbortApproval(t: nat)
    | CreateReport(project: nat, year: nat, month: nat)
    | Finalize(report: nat)

  /** Steps of the workers, their failures and deaths, and the recovery of abandoned runs. */
  datatype WorkerAction =
    | ClaimRun(w: nat, r: nat)
    | Gate(w: nat)
    | ReadDuplicates(w: nat)
    | ReadBudget(w: nat)
    | StoreResults(w: nat, around: Surroundings)
    | Finish(w: nat)
    | FailRun(w: nat)
    | Handle(w: nat)
    | Crash(w: nat)
    | Requeue(r: nat)

  datatype Action = ByUser(user: UserAction) | ByWorker(worker: WorkerAction)

  predicate Live(s: State, e: nat) {
    e < |s.expenses| && !s.expenses[e].deleted
  }

  predicate Stands(s: State, w: nat) {
    w in s.workers && s.workers[w].run < |s.runs|
  }

  /** The worker is on a pipeline of an existing expense. */
  predicate OnExpense(s: State, w: nat) {
    && Stands(s, w)
    && s.runs[s.workers[w].run].target.ForExpense?
    && s.runs[s.workers[w].run].target.expense < |s.expenses|
  }

  function ExpenseOf(s: State, w: nat): (e: nat)
    requires OnExpense(s, w)
    ensures e < |s.expenses|
  {
    s.runs[s.workers[w].run].target.expense
  }

  predicate InApproval(s: State, t: nat) {
    t in s.approving && s.approving[t].expense < |s.expenses|
  }

  function BudgetRow(s: State, claim: Claim): Option<nat> {
    if claim.project < |s.projects| then BudgetOf(s.projects[claim.project], claim.category) else None
  }

  predicate UserEnabled(s: State, a: UserAction) {
    match a
    case CreateProject(bs) => bs != [] && DistinctCategories(bs)
    case CreateExpense(claim) => claim.project < |s.projects|
    case Submit(e) => Live(s, e) && RowFree(s, e) && s.expenses[e].status == Draft
    case Update(e, claim) =>
      && Live(s, e) && RowFree(s, e) && s.expenses[e].reportId.None?
      && (s.expenses[e].status == Draft || s.expenses[e].status == Rejected)
      && claim.project == s.expenses[e].claim.project
    case Reject(e, _) => Live(s, e) && RowFree(s, e) && s.expenses[e].status == NeedsReview
    case Delete(e) => Live(s, e) && RowFree(s, e) && s.expenses[e].status == Draft
    case OpenApproval(t, e, _, _) => t !in s.approving && Live(s, e) && RowFree(s, e) && s.expenses[e].status ==
        NeedsReview
    case ReadResults(t) => InApproval(s, t) && s.approving[t].stage.Opened?
    case LockBudget(t) =>
      && InApproval(s, t) && s.approving[t].stage.Checked?
      && var c := s.expenses[s.approving[t].expense].claim;
         BudgetFree(s, c.project, c.category)
    case SumApproved(t) => InApproval(s, t) && s.approving[t].stage.BudgetHeld?
    case CommitApproval(t) => InApproval(s, t) && s.approving[t].stage.Summed?
    case AbortApproval(t) => t in s.approving
    case CreateReport(p, y, m) =>
      p < |s.projects| && IsMonth(y, m) && forall i :: 0 <= i < |s.reports| ==> !SamePeriod(s.reports[i], p, y, m)
    case Finalize(r) =>
      && r < |s.reports| && !s.reports[r].final && s.reports[r].project < |s.projects|
      && IsMonth(s.reports[r].year, s.reports[r].month)
  }

  predicate WorkerEnabled(s: State, a: WorkerAction) {
    match a
    case ClaimRun(w, r) => w !in s.workers && r < |s.runs| && s.runs[r].status == Queued
    case Gate(w) =>
      && Stands(s, w) && s.workers[w].step.Claimed?
      && (s.runs[s.workers[w].run].target.ForExpense? ==> OnExpense(s, w) && RowFree(s, ExpenseOf(s, w)))
    case ReadDuplicates(w) => OnExpense(s, w) && s.workers[w].step.Gated?
    case ReadBudget(w) => OnExpense(s, w) && s.workers[w].step.DuplicatesRead?
    case StoreResults(w, _) =>
      OnExpense(s, w) && s.workers[w].step.BudgetRead? && Live(s, ExpenseOf(s, w)) && RowFree(s, ExpenseOf(s, w))
    case Finish(w) => Stands(s, w) && s.workers[w].step.Done?
    case FailRun(w) => Stands(s, w) && !s.workers[w].step.Handling?
    case Handle(w) => Stands(s, w) && s.workers[w].step.Handling? && (s.runs[s.workers[w].run].target.ForExpense? ==>
        OnExpense(s, w))
    case Crash(w) => Stands(s, w)
    case Requeue(r) => r < |s.runs| && s.runs[r].status == Running && Unattended(s, r)
  }

  predicate Enabled(s: State, a: Action) {
    match a
    case ByUser(u) => UserEnabled(s, u)
    case ByWorker(v) => WorkerEnabled(s, v)
  }

  predicate SamePeriod(r: Report, project: nat, year: nat, month: nat) {
    r.project == project && r.year == year && r.month == month
  }

  function WithStatus(es: seq<Expense>, e: nat, status: Status): (r: seq<Expense>)
    requires e < |es|
    ensures |r| == |es|
  {
    es[e := es[e].(status := status)]
  }

  function Advance(s: State, t: nat, stage: Stage): State
    requires t in s.approving
  {
    s.(approving := s.approving[t := s.approving[t].(stage := stage)])
  }

  function Release(s: State, t: nat): State {
    s.(approving := s.approving - {t})
  }

  function Move(s: State, w: nat, step: Step): State
    requires w in s.workers
  {
    s.(workers := s.workers[w := s.workers[w].(step := step)])
  }

  function WithRun(s: State, r: nat, status: RunStatus): State
    requires r < |s.runs|
  {
    s.(runs := s.runs[r := s.runs[r].(status := status)])
  }

  function Leave(s: State, w: nat): State {
    s.(workers := s.workers - {w})
  }

  /** Remember a failure that came after the pipeline had returned. */
  function NoteLate(s: State, w: nat): State
    requires w in s.workers
  {
    if s.workers[w].step.Done? then s.(late := s.late + {s.workers[w].run}) else s
  }

  function RowsFor(rs: seq<Result>, e: nat, r: nat): (rows: seq<Row>)
    ensures |rows| == |rs| && forall i :: 0 <= i < |rs| ==> rows[i] == Row(e, r, rs[i])
  {
    seq(|rs|, i requires 0 <= i < |rs| => Row(e, r, rs[i]))
  }

  function DoSubmit(s: State, e: nat): State
    requires e < |s.expenses|
  {
    s.(expenses := WithStatus(s.expenses, e, Submitted),
       runs := s.runs + [Run(ForExpense(e), Queued, 0, Keys.PipelineKey(e, RunCount(s.runs, e) + 1))])
  }

  function DoUpdate(s: State, e: nat, claim: Claim): State
    requires e < |s.expenses|
  {
    var x := s.expenses[e];
    s.(expenses := s.expenses[e := x.(claim := claim, status := if x.status == Rejected then Draft else x.status)])
  }

  function DoReject(s: State, e: nat, reason: string): State
    requires e < |s.expenses|
  {
    s.(expenses := s.expenses[e := s.expenses[e].(status := Rejected, rejectReason := Some(reason))],
       approvals := s.approvals + [Rejection(e, reason)])
  }

  /** Blocked by an unanswered FAIL or a missing comment, otherwise past the check. */
  function DoReadResults(s: State, t: nat): State
    requires InApproval(s, t)
  {
    var a := s.approving[t];
    var fails := HasFail(LatestResults(s, a.expense));
    if (fails && !a.override) || (a.override && Blank(a.comment)) then Release(s, t) else Advance(s, t, Checked(fails))
  }

  function DoLockBudget(s: State, t: nat): State
    requires InApproval(s, t) && s.approving[t].stage.Checked?
  {
    match BudgetRow(s, s.expenses[s.approving[t].expense].claim)
    case None => Release(s, t)
    case Some(b) => Advance(s, t, BudgetHeld(s.approving[t].stage.fails, b))
  }

  function DoSumApproved(s: State, t: nat): State
    requires InApproval(s, t) && s.approving[t].stage.BudgetHeld?
  {
    var a := s.approving[t];
    var c := s.expenses[a.expense].claim;
    Advance(s, t, Summed(a.stage.fails, a.stage.budget, ApprovedSum(s.expenses, c.project, c.category)))
  }

  function DoCommitApproval(s: State, t: nat): State
    requires InApproval(s, t) && s.approving[t].stage.Summed?
  {
    var a := s.approving[t];
    if a.stage.already + s.expenses[a.expense].claim.amount > a.stage.budget then Release(s, t)
    else
      Release(s, t).(
        expenses := WithStatus(s.expenses, a.expense, Approved),
        approvals := s.approvals + [Approval(a.expense, a.stage.fails && a.override, a.comment)])
  }

  function DoCreateReport(s: State, project: nat, year: nat, month: nat): State
    requires project < |s.projects| && IsMonth(year, month)
  {
    var summary := BuildSummary(s.expenses, project, s.projects[project], year, month);
    s.(reports := s.reports + [Report(project, year, month, false, summary)],
       runs := s.runs + [Run(ForReport(|s.reports|), Queued, 0, Keys.GenerationKey(|s.reports|))])
  }

  /** `UPDATE expenses SET report_id` on the approved, unlocked expenses of the period. */
  function Locked(es: seq<Expense>, report: nat, q: Query): (r: seq<Expense>)
    ensures |r| == |es|
    ensures forall i :: 0 <= i < |es| ==>
            r[i] == if Matches(es[i], q) && es[i].reportId.None? then es[i].(reportId := Some(report)) else es[i]
  {
    seq(|es|, i requires 0 <= i < |es| =>
      if Matches(es[i], q) && es[i].reportId.None? then es[i].(reportId := Some(report)) else es[i])
  }

  function DoFinalize(s: State, r: nat): State
    requires r < |s.reports| && s.reports[r].project < |s.projects| && IsMonth(s.reports[r].year, s.reports[r].month)
  {
    var x := s.reports[r];
    var summary := BuildSummary(s.expenses, x.project, s.projects[x.project], x.year, x.month);
    s.(reports := s.reports[r := x.(final := true, summary := summary)],
       expenses := Locked(s.expenses, r, ApprovedOfMonth(x.project, x.year, x.month)))
  }

  function DoClaimRun(s: State, w: nat, r: nat): State
    requires r < |s.runs|
  {
    s.(runs := s.runs[r := s.runs[r].(status := Running, attempt := s.runs[r].attempt + 1)],
             workers := s.workers[w := Work(r, Claimed)])
  }

  function DoGate(s: State, w: nat): State
    requires Stands(s, w) && (s.runs[s.workers[w].run].target.ForExpense? ==> OnExpense(s, w))
  {
    if !s.runs[s.workers[w].run].target.ForExpense? then Move(s, w, Done)
    else
      var e := ExpenseOf(s, w);
      var x := s.expenses[e];
      if x.deleted then Move(s, w, Done)
      else if x.status == Submitted then Move(s.(expenses := WithStatus(s.expenses, e, Validating)), w, Gated(x.claim))
      else if x.status == Validating then Move(s, w, Gated(x.claim))
      else Move(s, w, Done)
  }

  function DoReadDuplicates(s: State, w: nat): State
    requires OnExpense(s, w) && s.workers[w].step.Gated?
  {
    var c := s.workers[w].step.claim;
    Move(s, w, DuplicatesRead(c, FindDuplicates(s.expenses, ExpenseOf(s, w), c)))
  }

  function DoReadBudget(s: State, w: nat): State
    requires OnExpense(s, w) && s.workers[w].step.DuplicatesRead?
  {
    var c := s.workers[w].step.claim;
    Move(s, w, BudgetRead(c, s.workers[w].step.duplicates, BudgetRow(s, c),
        ApprovedSum(s.expenses, c.project, c.category)))
  }

  function ContextOf(s: State, w: nat, around: Surroundings): Context
    requires OnExpense(s, w) && s.workers[w].step.BudgetRead?
  {
    var x := s.workers[w].step;
    Context(ExpenseOf(s, w), x.claim, x.budget, x.approved, x.duplicates, around)
  }

  /** Results and status change in one commit; the results are stored even if the status has moved on. */
  function DoStoreResults(s: State, w: nat, around: Surroundings): State
    requires OnExpense(s, w) && s.workers[w].step.BudgetRead?
  {
    var e := ExpenseOf(s, w);
    var r := s.workers[w].run;
    var c := ContextOf(s, w, around);
    Move(s, w, Done).(
      rows := s.rows + RowsFor(RunAll(c), e, r),
      expenses := if s.expenses[e].status == Validating then WithStatus(s.expenses, e, NeedsReview) else s.expenses,
      contexts := s.contexts[r := c])
  }

  /** A pipeline error: queued again while attempts remain, otherwise failed and handed over. */
  function DoFailRun(s: State, w: nat): State
    requires Stands(s, w)
  {
    var r := s.workers[w].run;
    if s.runs[r].attempt >= MAX_ATTEMPTS then Move(WithRun(NoteLate(s, w), r, Failed), w, Handling)
    else Leave(WithRun(NoteLate(s, w), r, Queued), w)
  }

  function DoHandle(s: State, w: nat): State
    requires Stands(s, w) && (s.runs[s.workers[w].run].target.ForExpense? ==> OnExpense(s, w))
  {
    if s.runs[s.workers[w].run].target.ForExpense? && InFlight(s.expenses[ExpenseOf(s, w)]) then
      Leave(s, w).(
        expenses := WithStatus(s.expenses, ExpenseOf(s, w), NeedsReview),
        rows := s.rows + RowsFor([HANDOVER], ExpenseOf(s, w), s.workers[w].run))
    else Leave(s, w)
  }

  function DoRequeue(s: State, r: nat): State
    requires r < |s.runs|
  {
    WithRun(s, r, if s.runs[r].attempt >= MAX_ATTEMPTS then Failed else Queued)
  }

  function UserNext(s: State, a: UserAction): State
    requires UserEnabled(s, a)
  {
    match a
    case CreateProject(bs) => s.(projects := s.projects + [bs])
    case CreateExpense(claim) => s.(expenses := s.expenses + [Expense(claim, Draft, None, false, None)])
    case Submit(e) => DoSubmit(s, e)
    case Update(e, claim) => DoUpdate(s, e, claim)
    case Reject(e, reason) => DoReject(s, e, reason)
    case Delete(e) => s.(expenses := s.expenses[e := s.expenses[e].(deleted := true)])
    case OpenApproval(t, e, override,
        comment) => s.(approving := s.approving[t := Approving(e, override, comment, Opened)])
    case ReadResults(t) => DoReadResults(s, t)
    case LockBudget(t) => DoLockBudget(s, t)
    case SumApproved(t) => DoSumApproved(s, t)
    case CommitApproval(t) => DoCommitApproval(s, t)
    case AbortApproval(t) => Release(s, t)
    case CreateReport(p, y, m) => DoCreateReport(s, p, y, m)
    case Finalize(r) => DoFinalize(s, r)
  }

  function WorkerNext(s: State, a: WorkerAction): State
    requires WorkerEnabled(s, a)
  {
    match a
    case ClaimRun(w, r) => DoClaimRun(s, w, r)
    case Gate(w) => DoGate(s, w)
    case ReadDuplicates(w) => DoReadDuplicates(s, w)
    case ReadBudget(w) => DoReadBudget(s, w)
    case StoreResults(w, around) => DoStoreResults(s, w, around)
    case Finish(w) => Leave(WithRun(s, s.workers[w].run, Succeeded), w)
    case FailRun(w) => DoFailRun(s, w)
    case Handle(w) => DoHandle(s, w)
    case Crash(w) => Leave(NoteLate(s, w), w)
    case Requeue(r) => DoRequeue(s, r)
  }

  function Next(s: State, a: Action): State
    requires Enabled(s, a)
  {
    match a
    case ByUser(u) => UserNext(s, u)
    case ByWorker(v) => WorkerNext(s, v)
  }

  /** Every action of the list can happen in turn. */
  predicate Path(s: State, acts: seq<Action>)
    decreases |acts|
  {
    acts == [] || (Enabled(s, acts[0]) && Path(Next(s, acts[0]), acts[1..]))
  }

  function After(s: State, acts: seq<Action>): State
    requires Path(s, acts)
    decreases |acts|
  {
    if acts == [] then s else After(Next(s, acts[0]), acts[1..])
  }

  lemma FirstStep(s: State, a: Action, rest: seq<Action>)
    requires Enabled(s, a) && Path(Next(s, a), rest)
    ensures Path(s, [a] + rest) && After(s, [a] + rest) == After(Next(s, a), rest)
  {
  }

  /** Some run leads from the one state to the other. */
  ghost predicate Leads(o: State, u: State) {
    exists acts :: Path(o, acts) && After(o, acts) == u
  }

  lemma {:induction false} AppendStep(o: State, acts: seq<Action>, a: Action)
    requires Path(o, acts) && Enabled(After(o, acts), a)
    ensures Path(o, acts + [a]) && After(o, acts + [a]) == Next(After(o, acts), a)
    decreases |acts|
  {
    if acts == [] {
      assert [a] == [a] + [];
      FirstStep(o, a, []);
    } else {
      AppendStep(Next(o, acts[0]), acts[1..], a);
      FirstStep(o, acts[0], acts[1..] + [a]);
      assert acts + [a] == [acts[0]] + (acts[1..] + [a]);
    }
  }

  lemma LeadsOn(o: State, s: State, a: Action)
    requires Leads(o, s) && Enabled(s, a)
    ensures Leads(o, Next(s, a))
  {
    var acts :| Path(o, acts) && After(o, acts) == s;
    AppendStep(o, acts, a);
  }

  lemma LeadsNowhere(o: State)
    ensures Leads(o, o)
  {
    assert Path(o, []) && After(o, []) == o;
  }

  lemma {:induction false} Composed(o: State, s: State, u: State)
    requires Leads(o, s) && Leads(s, u)
    ensures Leads(o, u)
  {
    var acts :| Path(s, acts) && After(s, acts) == u;
    ComposedBy(o, s, acts);
  }

  lemma {:induction false} ComposedBy(o: State, s: State, acts: seq<Action>)
    requires Leads(o, s) && Path(s, acts)
    ensures Leads(o, After(s, acts))
    decreases |acts|
  {
    if acts != [] {
      LeadsOn(o, s, acts[0]);
      ComposedBy(o, Next(s, acts[0]), acts[1..]);
    }
  }
}
