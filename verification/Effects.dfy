/** What a step can do to each table, stated once for the invariants that follow. */
module Effects {
  import opened Common
  import opened Rules
  import opened Ledger
  import opened Workflow
  import opened QueueInvariants
  import opened QueueProgress
  import opened Locks

  // ---------------------------------------------------------------- one expense row

  predicate Reviewed(e: Expense) {
    e.status == NeedsReview || e.status == Approved || e.status == Rejected
  }

  /** Every way an expense row can change in one step. */
  predicate RowStep(x: Expense, y: Expense) {
    || y == x
    || (x.status == Draft && !x.deleted && y == x.(status := Submitted))
    || (x.status == Submitted && y == x.(status := Validating))
    || (InFlight(x) && y == x.(status := NeedsReview))
    || (x.status == NeedsReview && y == x.(status := Approved))
    || (x.status == NeedsReview && y == x.(status := Rejected, rejectReason := y.rejectReason))
    || ((x.status == Draft || x.status == Rejected) && x.reportId.None? && !x.deleted
        && y == x.(status := Draft, claim := y.claim) && y.claim.project == x.claim.project)
    || (x.status == Draft && y == x.(deleted := true))
    || (x.status == Approved && !x.deleted && x.reportId.None? && y == x.(reportId := y.reportId))
  }

  predicate NewRow(y: Expense) {
    y.status == Draft && y.reportId.None? && !y.deleted
  }

  ghost predicate RowsStep(es: seq<Expense>, fs: seq<Expense>) {
    && |es| <= |fs|
    && (forall i :: 0 <= i < |es| ==> RowStep(es[i], fs[i]))
    && (forall i :: |es| <= i < |fs| ==> NewRow(fs[i]))
  }

  lemma OneRowSteps(es: seq<Expense>, k: nat, y: Expense)
    requires k < |es| && RowStep(es[k], y)
    ensures RowsStep(es, es[k := y])
  {
  }

  lemma RequestRowsStep(s: State, a: UserAction)
    requires UserEnabled(s, a) && (a.Submit? || a.Update? || a.Reject? || a.Delete?)
    ensures RowsStep(s.expenses, UserNext(s, a).expenses)
  {
  }

  lemma ApprovalRowsStep(s: State, a: UserAction)
    requires LocksSound(s) && UserEnabled(s, a) && IsApprovalStep(a)
    ensures RowsStep(s.expenses, UserNext(s, a).expenses)
  {
    if a.CommitApproval? {
      var e := s.approving[a.t].expense;
      OneRowSteps(s.expenses, e, s.expenses[e].(status := Approved));
    }
  }

  lemma UserRowsStep(s: State, a: UserAction)
    requires LocksSound(s) && UserEnabled(s, a)
    ensures RowsStep(s.expenses, UserNext(s, a).expenses)
  {
    if IsApprovalStep(a) {
      ApprovalRowsStep(s, a);
    } else if a.Submit? || a.Update? || a.Reject? || a.Delete? {
      RequestRowsStep(s, a);
    } else if a.Finalize? {
      FinalizeRowsStep(s, a.report);
    } else {
      OtherRowsStep(s, a);
    }
  }

  lemma FinalizeRowsStep(s: State, r: nat)
    requires UserEnabled(s, Finalize(r))
    ensures RowsStep(s.expenses, DoFinalize(s, r).expenses)
  {
  }

  lemma OtherRowsStep(s: State, a: UserAction)
    requires UserEnabled(s, a) && (a.CreateProject? || a.CreateExpense? || a.CreateReport?)
    ensures RowsStep(s.expenses, UserNext(s, a).expenses)
  {
  }

  /** The expense a worker's run is about. */
  function Patient(s: State, a: WorkerAction): nat
    requires WorkerEnabled(s, a)
  {
    match s.runs[Subject(s, a)].target
    case ForExpense(e) => e
    case ForReport(_) => 0
  }

  /** Workers only push an in-flight expense on, and only the one their run is about. */
  lemma WorkerRow(s: State, a: WorkerAction)
    requires WorkerEnabled(s, a)
    ensures var es, fs := s.expenses, WorkerNext(s, a).expenses;
            || fs == es
            || (&& MayWrite(a) && s.runs[Subject(s, a)].target.ForExpense? && Patient(s, a) < |es|
                && InFlight(es[Patient(s, a)])
                && (fs == WithStatus(es, Patient(s, a), NeedsReview)
                    || (es[Patient(s, a)].status == Submitted && fs == WithStatus(es, Patient(s, a), Validating))))
  {
  }

  lemma WorkerRowsStep(s: State, a: WorkerAction)
    requires WorkerEnabled(s, a)
    ensures RowsStep(s.expenses, WorkerNext(s, a).expenses) && |WorkerNext(s, a).expenses| == |s.expenses|
  {
    WorkerRow(s, a);
  }

  lemma StepRows(s: State, a: Action)
    requires LocksSound(s) && Enabled(s, a)
    ensures RowsStep(s.expenses, Next(s, a).expenses)
  {
    match a
    case ByUser(u) => UserRowsStep(s, u);
    case ByWorker(v) => WorkerRowsStep(s, v);
  }

  // ---------------------------------------------------------------- the other tables

  /** Requests touch no worker table; only a submission or a new report adds a run. */
  lemma UserLeavesWork(s: State, a: UserAction)
    requires UserEnabled(s, a)
    ensures var u := UserNext(s, a);
            && u.workers == s.workers && u.rows == s.rows && u.contexts == s.contexts && u.late == s.late
            && (!a.Submit? && !a.CreateReport? ==> u.runs == s.runs)
            && |s.projects| <= |u.projects| && u.projects[..|s.projects|] == s.projects
  {
    if IsApprovalStep(a) {
      ApprovalLeavesWork(s, a);
    }
  }

  lemma ApprovalLeavesWork(s: State, a: UserAction)
    requires UserEnabled(s, a) && IsApprovalStep(a)
    ensures var u := UserNext(s, a);
            u.workers == s.workers && u.rows == s.rows && u.contexts == s.contexts && u.late == s.late && u.runs ==
                s.runs && u.projects == s.projects
  {
  }

  /** Results a worker action stores. */
  function Stored(s: State, a: WorkerAction): seq<Result>
    requires WorkerEnabled(s, a)
  {
    match a
    case StoreResults(w, around) => RunAll(ContextOf(s, w, around))
    case Handle(w) =>
      if s.runs[s.workers[w].run].target.ForExpense? && InFlight(s.expenses[ExpenseOf(s, w)]) then [HANDOVER] else []
    case _ => []
  }

  /** Workers touch no request table; what they store is filed under their own run. */
  lemma WorkerLeavesRequests(s: State, a: WorkerAction)
    requires WorkerEnabled(s, a)
    ensures var u := WorkerNext(s, a);
            && u.projects == s.projects && u.approvals == s.approvals && u.reports == s.reports && u.approving ==
                s.approving
            && u.rows == s.rows + RowsFor(Stored(s, a), Patient(s, a), Subject(s, a))
  {
    if a.StoreResults? {
    } else if a.Handle? {
    } else {
    }
  }

  lemma ContextsRecorded(s: State, a: WorkerAction)
    requires WorkerEnabled(s, a)
    ensures WorkerNext(s, a).contexts ==
            if a.StoreResults? then s.contexts[Subject(s, a) := ContextOf(s, a.w, a.around)] else s.contexts
  {
  }

  lemma FailuresNoted(s: State, a: WorkerAction)
    requires WorkerEnabled(s, a)
    ensures WorkerNext(s, a).late ==
            if (a.FailRun? || a.Crash?) && s.workers[a.w].step.Done? then s.late + {Subject(s, a)} else s.late
  {
  }

  /** Contexts and failures are recorded for the worker's own run only. */
  lemma WorkerHistory(s: State, a: WorkerAction)
    requires WorkerEnabled(s, a)
    ensures WorkerNext(s, a).contexts ==
            if a.StoreResults? then s.contexts[Subject(s, a) := ContextOf(s, a.w, a.around)] else s.contexts
    ensures WorkerNext(s, a).late ==
            if (a.FailRun? || a.Crash?) && s.workers[a.w].step.Done? then s.late + {Subject(s, a)} else s.late
  {
    ContextsRecorded(s, a);
    FailuresNoted(s, a);
  }

  // ---------------------------------------------------------------- the status of an expense

  /** The worker of this action is on the pipeline of expense i. */
  predicate WorksOn(s: State, w: nat, i: nat) {
    Stands(s, w) && s.runs[s.workers[w].run].target == ForExpense(i)
  }

  /** The moves of a worker's action: the gate, the results and the handover. */
  lemma WorkerMovesStatus(s: State, a: WorkerAction, i: nat)
    requires WorkerEnabled(s, a) && i < |s.expenses|
    ensures var x, y := s.expenses[i], WorkerNext(s, a).expenses[i];
            if a.Gate? && WorksOn(s, a.w, i) && x.status == Submitted && !x.deleted then y == x.(status := Validating)
            else if a.StoreResults? && WorksOn(s, a.w, i) && x.status == Validating then y == x.(status := NeedsReview)
            else if a.Handle? && WorksOn(s, a.w, i) && (x.status == Submitted || x.status == Validating) then
              y == x.(status := NeedsReview)
            else y == x
  {
  }

  /** The moves of a request: submission, verdict and the first edit of a rejected claim. */
  lemma UserMovesStatus(s: State, a: UserAction, i: nat)
    requires LocksSound(s) && UserEnabled(s, a) && i < |s.expenses|
    ensures |UserNext(s, a).expenses| >= |s.expenses|
    ensures var x, y := s.expenses[i].status, UserNext(s, a).expenses[i].status;
            if a == Submit(i) then x == Draft && y == Submitted
            else if a.Reject? && a.e == i then x == NeedsReview && y == Rejected
            else if a.Update? && a.e == i then (x == Draft || x == Rejected) && y == Draft
            else if a.CommitApproval? && s.approving[a.t].expense == i then
              x == NeedsReview
              && y == if s.approving[a.t].stage.already + s.expenses[i].claim.amount <= s.approving[a.t].stage.budget
                      then Approved else NeedsReview
            else y == x
  {
    UserRowsStep(s, a);
  }

  /** An expense changes its status along these edges and no others, and along each exactly at its own action. */
  lemma StatusMoves(s: State, a: Action, i: nat)
    requires LocksSound(s) && Enabled(s, a) && i < |s.expenses|
    ensures i < |Next(s, a).expenses|
    ensures var x, y := s.expenses[i].status, Next(s, a).expenses[i].status;
            && (x == Draft && y == Submitted <==> a == ByUser(Submit(i)))
            && (x == Submitted && y == Validating <==>
                a.ByWorker? && a.worker.Gate? && WorksOn(s, a.worker.w, i) && x == Submitted && !s.expenses[i].deleted)
            && (x == Validating && y == NeedsReview <==>
                && a.ByWorker? && (a.worker.StoreResults? || a.worker.Handle?) && WorksOn(s, a.worker.w, i)
                && x == Validating)
            && (x == Submitted && y == NeedsReview <==>
                a.ByWorker? && a.worker.Handle? && WorksOn(s, a.worker.w, i) && x == Submitted)
            && (x == NeedsReview && y == Rejected <==> a.ByUser? && a.user.Reject? && a.user.e == i)
            && (x == Rejected && y == Draft <==> a.ByUser? && a.user.Update? && a.user.e == i && x == Rejected)
            && (x == NeedsReview && y == Approved <==>
                && a.ByUser? && a.user.CommitApproval? && s.approving[a.user.t].expense == i
                && s.approving[a.user.t].stage.already + s.expenses[i].claim.amount <=
                    s.approving[a.user.t].stage.budget)
            && (x == y
                || (x == Draft && y == Submitted) || (x == Submitted && y == Validating)
                || (x == Validating && y == NeedsReview) || (x == Submitted && y == NeedsReview)
                || (x == NeedsReview && y == Rejected) || (x == NeedsReview && y == Approved)
                || (x == Rejected && y == Draft))
  {
    match a
    case ByUser(u) => UserMovesStatus(s, u, i);
    case ByWorker(v) => WorkerMovesStatus(s, v, i);
  }
}
