/** Which submitted expenses the workers look after, and how one can fall out of their hands. */
module Handover {
  import opened Common
  import opened Rules
  import opened Ledger
  import opened Workflow
  import opened QueueInvariants
  import opened Locks

  /** r is the newest run of expense e. */
  ghost predicate IsLatest(runs: seq<Run>, e: nat, r: nat) {
    && r < |runs| && runs[r].target == ForExpense(e)
    && forall q :: r < q < |runs| ==> runs[q].target != ForExpense(e)
  }

  lemma {:induction false} LatestRunIsLatest(runs: seq<Run>, e: nat, r: nat)
    ensures LatestRun(runs, e) == Some(r) <==> IsLatest(runs, e, r)
  {
    if runs != [] {
      LatestRunIsLatest(runs[..|runs| - 1], e, r);
      if runs[|runs| - 1].target != ForExpense(e) && IsLatest(runs[..|runs| - 1], e, r) {
        assert IsLatest(runs, e, r);
      }
    }
  }

  lemma LatestIsUnique(runs: seq<Run>, e: nat, r: nat, q: nat)
    requires IsLatest(runs, e, r) && IsLatest(runs, e, q)
    ensures r == q
  {
  }

  ghost predicate HasRun(runs: seq<Run>, e: nat) {
    exists r :: IsLatest(runs, e, r)
  }

  ghost predicate OnlyDraftsDeleted(es: seq<Expense>) {
    forall e :: 0 <= e < |es| && es[e].deleted ==> es[e].status == Draft
  }

  /** What the newest run of an expense says about its status. */
  ghost predicate CycleSound(s: State) {
    && OnlyDraftsDeleted(s.expenses)
    && (forall e :: 0 <= e < |s.expenses| && InFlight(s.expenses[e]) ==> HasRun(s.runs, e))
    && (forall e: nat, r: nat :: e < |s.expenses| && IsLatest(s.runs, e, r) && s.runs[r].status == Succeeded ==>
        !InFlight(s.expenses[e]))
    && (forall e, w :: 0 <= e < |s.expenses| && w in s.workers && IsLatest(s.runs, e, s.workers[w].run) ==>
        StepFits(s.workers[w].step, s.expenses[e]))
  }

  predicate StepFits(x: Step, e: Expense) {
    && (x.Done? ==> !InFlight(e))
    && (PastGate(x) ==> e.status != Submitted)
  }

  // ---------------------------------------------------------------- frames

  /**
   No expense is newly in flight, and one that stays in flight keeps its status; nothing is newly
   deleted but drafts.
   */
  ghost predicate CalmExpenses(es: seq<Expense>, fs: seq<Expense>) {
    && |es| <= |fs|
    && (forall i :: 0 <= i < |es| && InFlight(fs[i]) ==> fs[i].status == es[i].status)
    && (forall i :: |es| <= i < |fs| ==> !InFlight(fs[i]))
    && OnlyDraftsDeleted(fs)
    && (forall i :: 0 <= i < |es| && fs[i].status == Submitted ==> es[i].status == Submitted)
  }

  lemma CalmKeepsCycle(s: State, u: State)
    requires QueueSound(s) && CycleSound(s) && u.runs == s.runs && u.workers == s.workers
    requires CalmExpenses(s.expenses, u.expenses)
    ensures CycleSound(u)
  {
  }

  lemma RowChangeIsCalm(es: seq<Expense>, k: nat, x: Expense)
    requires OnlyDraftsDeleted(es) && k < |es| && !InFlight(x) && (x.deleted ==> x.status == Draft)
    ensures CalmExpenses(es, es[k := x])
  {
  }

  lemma ApprovalIsCalm(s: State, a: UserAction)
    requires OnlyDraftsDeleted(s.expenses) && LocksSound(s) && UserEnabled(s, a) && IsApprovalStep(a)
    ensures CalmExpenses(s.expenses, UserNext(s, a).expenses)
  {
    if a.CommitApproval? {
      var e := s.approving[a.t].expense;
      RowChangeIsCalm(s.expenses, e, s.expenses[e].(status := Approved));
    }
  }

  lemma FinalizeIsCalm(s: State, r: nat)
    requires OnlyDraftsDeleted(s.expenses) && UserEnabled(s, Finalize(r))
    ensures CalmExpenses(s.expenses, DoFinalize(s, r).expenses)
  {
  }

  lemma RequestIsCalm(s: State, a: UserAction)
    requires OnlyDraftsDeleted(s.expenses) && UserEnabled(s, a)
            && (a.CreateProject? || a.CreateExpense? || a.Update? || a.Reject? || a.Delete?)
    ensures CalmExpenses(s.expenses, UserNext(s, a).expenses)
  {
  }

  lemma UserIsCalm(s: State, a: UserAction)
    requires OnlyDraftsDeleted(s.expenses) && LocksSound(s) && UserEnabled(s, a) && !a.Submit? && !a.CreateReport?
    ensures CalmExpenses(s.expenses, UserNext(s, a).expenses)
  {
    if IsApprovalStep(a) {
      ApprovalIsCalm(s, a);
    } else if a.Finalize? {
      FinalizeIsCalm(s, a.report);
    } else {
      RequestIsCalm(s, a);
    }
  }

  lemma LatestAfterAppend(runs: seq<Run>, x: Run, e: nat, r: nat)
    ensures IsLatest(runs + [x], e, r) <==> if x.target == ForExpense(e) then r == |runs| else IsLatest(runs, e, r)
  {
    if x.target == ForExpense(e) {
      assert (runs + [x])[|runs|] == x;
    } else if IsLatest(runs, e, r) {
      forall q | r < q < |runs + [x]| ensures (runs + [x])[q].target != ForExpense(e) {
      }
    } else if IsLatest(runs + [x], e, r) {
      forall q | r < q < |runs| ensures runs[q].target != ForExpense(e) {
        assert (runs + [x])[q] == runs[q];
      }
    }
  }

  lemma SubmitKeepsCycle(s: State, e: nat)
    requires QueueSound(s) && CycleSound(s) && UserEnabled(s, Submit(e))
    ensures CycleSound(DoSubmit(s, e))
  {
    var u := DoSubmit(s, e);
    var x := u.runs[|s.runs|];
    forall d: nat, r: nat ensures IsLatest(u.runs, d, r) <==> if d == e then r == |s.runs| else IsLatest(s.runs, d, r) {
      LatestAfterAppend(s.runs, x, d, r);
    }
    forall d | 0 <= d < |u.expenses| && InFlight(u.expenses[d]) ensures HasRun(u.runs, d) {
      if d == e {
        assert IsLatest(u.runs, d, |s.runs|);
      } else {
        var r :| IsLatest(s.runs, d, r);
        assert IsLatest(u.runs, d, r);
      }
    }
  }

  lemma CreateReportKeepsCycle(s: State, u: State, x: Run)
    requires QueueSound(s) && CycleSound(s) && u.expenses == s.expenses && u.workers == s.workers
    requires u.runs == s.runs + [x] && x.target.ForReport?
    ensures CycleSound(u)
  {
    forall d: nat, r: nat ensures IsLatest(u.runs, d, r) <==> IsLatest(s.runs, d, r) {
      LatestAfterAppend(s.runs, x, d, r);
    }
    forall d | 0 <= d < |u.expenses| && InFlight(u.expenses[d]) ensures HasRun(u.runs, d) {
      var r :| IsLatest(s.runs, d, r);
      assert IsLatest(u.runs, d, r);
    }
  }

  lemma UserKeepsCycle(s: State, a: UserAction)
    requires QueueSound(s) && LocksSound(s) && CycleSound(s) && UserEnabled(s, a)
    ensures CycleSound(UserNext(s, a))
  {
    if a.Submit? {
      SubmitKeepsCycle(s, a.e);
    } else if a.CreateReport? {
      var u := DoCreateReport(s, a.project, a.year, a.month);
      CreateReportKeepsCycle(s, u, u.runs[|s.runs|]);
    } else {
      UserFrame(s, a);
      UserIsCalm(s, a);
      CalmKeepsCycle(s, UserNext(s, a));
    }
  }

  // ---------------------------------------------------------------- the workers

  /** The same targets: what is newest does not change. */
  predicate SameTargets(a: seq<Run>, b: seq<Run>) {
    |a| == |b| && forall r :: 0 <= r < |a| ==> a[r].target == b[r].target
  }

  lemma SameTargetsSameLatest(a: seq<Run>, b: seq<Run>, e: nat, r: nat)
    requires SameTargets(a, b)
    ensures IsLatest(a, e, r) <==> IsLatest(b, e, r)
  {
  }

  /** Statuses of runs change, workers come and go; expenses stay. */
  lemma RunsKeepCycle(s: State, u: State)
    requires CycleSound(s) && u.expenses == s.expenses && SameTargets(s.runs, u.runs)
    requires forall w :: w in u.workers ==>
            (w in s.workers && u.workers[w] == s.workers[w])
                || (!u.workers[w].step.Done? && !PastGate(u.workers[w].step))
    requires forall e: nat, r: nat :: e < |s.expenses| && IsLatest(u.runs, e, r) && u.runs[r].status == Succeeded ==>
               s.runs[r].status == Succeeded || !InFlight(s.expenses[e])
    ensures CycleSound(u)
  {
  }

  /** A worker on expense d takes a step that fits, and at most d changes status. */
  lemma MoveKeepsCycle(s: State, u: State, w: nat, d: nat, status: Status)
    requires QueueSound(s) && CycleSound(s) && w in s.workers && w in u.workers && d < |s.expenses|
    requires u.runs == s.runs && u.workers == s.workers[w := u.workers[w]] && u.workers[w].run == s.workers[w].run
    requires s.runs[s.workers[w].run].target == ForExpense(d)
    requires u.expenses == s.expenses[d := s.expenses[d].(status := status)]
    requires status != s.expenses[d].status ==>
            (s.expenses[d].status == Submitted && status == Validating) || status == NeedsReview
    requires IsLatest(s.runs, d, s.workers[w].run) ==> StepFits(u.workers[w].step, u.expenses[d])
    requires s.expenses[d].deleted ==> status == Draft
    ensures CycleSound(u)
  {
  }

  lemma ReportGateKeepsCycle(s: State, w: nat)
    requires QueueSound(s) && CycleSound(s) && w in s.workers && s.runs[s.workers[w].run].target.ForReport?
    ensures CycleSound(Move(s, w, Done))
  {
  }

  lemma GateKeepsCycle(s: State, w: nat)
    requires QueueSound(s) && CycleSound(s) && WorkerEnabled(s, Gate(w))
    ensures CycleSound(DoGate(s, w))
  {
    if s.runs[s.workers[w].run].target.ForReport? {
      ReportGateKeepsCycle(s, w);
    } else {
      var d := ExpenseOf(s, w);
      MoveKeepsCycle(s, DoGate(s, w), w, d, DoGate(s, w).expenses[d].status);
    }
  }

  lemma ReadKeepsCycle(s: State, a: WorkerAction)
    requires QueueSound(s) && CycleSound(s) && WorkerEnabled(s, a) && (a.ReadDuplicates? || a.ReadBudget?)
    ensures CycleSound(WorkerNext(s, a))
  {
  }

  lemma StoreKeepsCycle(s: State, w: nat, around: Surroundings)
    requires QueueSound(s) && CycleSound(s) && WorkerEnabled(s, StoreResults(w, around))
    ensures CycleSound(DoStoreResults(s, w, around))
  {
    var d := ExpenseOf(s, w);
    MoveKeepsCycle(s, DoStoreResults(s, w, around), w, d, DoStoreResults(s, w, around).expenses[d].status);
  }

  lemma FinishKeepsCycle(s: State, w: nat)
    requires QueueSound(s) && CycleSound(s) && WorkerEnabled(s, Finish(w))
    ensures CycleSound(WorkerNext(s, Finish(w)))
  {
    var u := WorkerNext(s, Finish(w));
    forall e, r: nat | 0 <= e < |s.expenses| && r < |u.runs| && IsLatest(u.runs, e, r) && u.runs[r].status == Succeeded
      ensures s.runs[r].status == Succeeded || !InFlight(s.expenses[e])
    {
      SameTargetsSameLatest(s.runs, u.runs, e, r);
      if r == s.workers[w].run {
        assert StepFits(s.workers[w].step, s.expenses[e]);
      }
    }
    RunsKeepCycle(s, u);
  }

  lemma HandleKeepsCycle(s: State, w: nat)
    requires QueueSound(s) && CycleSound(s) && WorkerEnabled(s, Handle(w))
    ensures CycleSound(DoHandle(s, w))
  {
  }

  lemma FailShape(s: State, w: nat)
    requires WorkerEnabled(s, FailRun(w))
    ensures var u := DoFailRun(s, w);
            && u.expenses == s.expenses && SameTargets(s.runs, u.runs)
            && u.runs == s.runs[s.workers[w].run := u.runs[s.workers[w].run]]
                && u.runs[s.workers[w].run].status != Succeeded
            && (u.workers == s.workers - {w} || u.workers == s.workers[w := Work(s.workers[w].run, Handling)])
  {
  }

  lemma FailKeepsCycle(s: State, w: nat)
    requires QueueSound(s) && CycleSound(s) && WorkerEnabled(s, FailRun(w))
    ensures CycleSound(DoFailRun(s, w))
  {
    FailShape(s, w);
    RunsKeepCycle(s, DoFailRun(s, w));
  }

  lemma OtherKeepsCycle(s: State, a: WorkerAction)
    requires QueueSound(s) && CycleSound(s) && WorkerEnabled(s, a) && (a.ClaimRun? || a.Crash? || a.Requeue?)
    ensures CycleSound(WorkerNext(s, a))
  {
    RunsKeepCycle(s, WorkerNext(s, a));
  }

  lemma WorkerKeepsCycle(s: State, a: WorkerAction)
    requires QueueSound(s) && CycleSound(s) && WorkerEnabled(s, a)
    ensures CycleSound(WorkerNext(s, a))
  {
    if a.Gate? {
      GateKeepsCycle(s, a.w);
    } else if a.ReadDuplicates? || a.ReadBudget? {
      ReadKeepsCycle(s, a);
    } else if a.StoreResults? {
      StoreKeepsCycle(s, a.w, a.around);
    } else if a.Finish? {
      FinishKeepsCycle(s, a.w);
    } else if a.Handle? {
      HandleKeepsCycle(s, a.w);
    } else if a.FailRun? {
      FailKeepsCycle(s, a.w);
    } else {
      OtherKeepsCycle(s, a);
    }
  }

  lemma CycleStep(s: State, a: Action)
    requires QueueSound(s) && LocksSound(s) && CycleSound(s) && Enabled(s, a)
    ensures CycleSound(Next(s, a))
  {
    match a
    case ByUser(u) => UserKeepsCycle(s, u);
    case ByWorker(v) => WorkerKeepsCycle(s, v);
  }
}
