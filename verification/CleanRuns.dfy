/**
 Expenses none of whose runs failed after its pipeline had returned. For them every run still to be
 worked off is the newest one, so nothing stale ever reaches a manager.
 */
module CleanRuns {
  import opened Common
  import opened Rules
  import opened Ledger
  import opened Workflow
  import opened QueueInvariants
  import opened QueueProgress
  import opened Locks
  import opened Handover
  import opened Effects
  import opened LostExpenses
  import opened Validation

  /** No run of the expense failed or died between the pipeline's return and its being marked finished. */
  ghost predicate Clean(s: State, e: nat) {
    forall r :: r in s.late && r < |s.runs| ==> s.runs[r].target != ForExpense(e)
  }

  /** Something is still to be done for the run: its pipeline, or the handover. */
  ghost predicate Outstanding(s: State, r: nat)
    requires r < |s.runs|
  {
    || s.runs[r].status == Queued
    || (s.runs[r].status == Running && forall w :: w in s.workers && s.workers[w].run == r ==> !s.workers[w].step.Done?)
    || exists w :: w in s.workers && s.workers[w] == Work(r, Handling)
  }

  ghost predicate CleanFits(s: State, e: nat, r: nat)
    requires e < |s.expenses| && r < |s.runs|
  {
    Outstanding(s, r) ==> IsLatest(s.runs, e, r) && InFlight(s.expenses[e])
  }

  ghost predicate CleanSound(s: State) {
    forall e: nat, r: nat :: e < |s.expenses| && r < |s.runs| && s.runs[r].target == ForExpense(e) && Clean(s, e) ==>
        CleanFits(s, e, r)
  }

  // ---------------------------------------------------------------- requests

  /** Requests leave an expense in flight as it is. */
  lemma UserLeavesInFlight(s: State, a: UserAction, e: nat)
    requires LocksSound(s) && UserEnabled(s, a) && e < |s.expenses| && InFlight(s.expenses[e])
    ensures e < |UserNext(s, a).expenses| && UserNext(s, a).expenses[e] == s.expenses[e]
  {
    UserRowsStep(s, a);
    if IsApprovalStep(a) {
    } else if a.Finalize? {
      var x := s.reports[a.report];
      assert !Matches(s.expenses[e], ApprovedOfMonth(x.project, x.year, x.month));
    } else {
    }
  }

  lemma CleanBefore(s: State, a: Action, e: nat)
    requires QueueSound(s) && HistorySound(s) && Enabled(s, a) && Clean(Next(s, a), e)
    ensures Clean(s, e)
  {
    match a
    case ByUser(u) =>
      RunsExtend(s, u);
      UserLeavesWork(s, u);
      forall r | r in s.late && r < |s.runs| ensures s.runs[r].target != ForExpense(e) {
        assert UserNext(s, u).runs[r] == UserNext(s, u).runs[..|s.runs|][r];
      }
    case ByWorker(v) =>
      QueueTargets(s, v);
      WorkerHistory(s, v);
  }

  lemma UserKeepsOutstanding(s: State, a: UserAction, r: nat)
    requires UserEnabled(s, a) && r < |s.runs|
    ensures r < |UserNext(s, a).runs| && (Outstanding(UserNext(s, a), r) <==> Outstanding(s, r))
  {
    RunsExtend(s, a);
    UserLeavesWork(s, a);
    assert UserNext(s, a).runs[r] == UserNext(s, a).runs[..|s.runs|][r];
  }

  lemma NewRunOf(s: State, a: UserAction, e: nat, r: nat)
    requires UserEnabled(s, a) && r < |UserNext(s, a).runs| && UserNext(s, a).runs[r].target == ForExpense(e)
    requires r >= |s.runs|
    ensures a == Submit(e) && r == |s.runs|
  {
  }

  lemma OldRunStaysLatest(s: State, a: UserAction, e: nat, r: nat)
    requires UserEnabled(s, a) && a != Submit(e) && IsLatest(s.runs, e, r)
    ensures IsLatest(UserNext(s, a).runs, e, r)
  {
  }

  lemma UserKeepsClean(s: State, a: UserAction)
    requires QueueSound(s) && LocksSound(s) && HistorySound(s) && CleanSound(s) && UserEnabled(s, a)
    ensures CleanSound(UserNext(s, a))
  {
    var u := UserNext(s, a);
    forall e: nat, r: nat | e < |u.expenses| && r < |u.runs| && u.runs[r].target == ForExpense(e) && Clean(u, e)
      ensures CleanFits(u, e, r)
    {
      if r >= |s.runs| {
        NewRunOf(s, a, e, r);
      } else {
        RunsExtend(s, a);
        assert u.runs[r] == u.runs[..|s.runs|][r];
        CleanBefore(s, ByUser(a), e);
        UserKeepsOutstanding(s, a, r);
        assert CleanFits(s, e, r);
        if Outstanding(s, r) {
          UserLeavesInFlight(s, a, e);
          OldRunStaysLatest(s, a, e, r);
        }
      }
    }
  }

  // ---------------------------------------------------------------- the workers

  /** A worker that pushes an expense on holds a run that was outstanding. */
  lemma WriterIsOutstanding(s: State, a: WorkerAction)
    requires QueueSound(s) && WorkerEnabled(s, a) && WorkerNext(s, a).expenses != s.expenses
    ensures Outstanding(s, Subject(s, a))
  {
  }

  lemma OtherOutstanding(s: State, a: WorkerAction, r: nat)
    requires QueueSound(s) && WorkerEnabled(s, a) && r < |s.runs| && r != Subject(s, a)
    ensures r < |WorkerNext(s, a).runs| && (Outstanding(WorkerNext(s, a), r) <==> Outstanding(s, r))
  {
    WorkerStepIsLocal(s, a);
  }

  /**
   The run of the step is outstanding afterwards only if it was before and its expense stays in
   flight, or if the failure is noted.
   */
  lemma OwnOutstanding(s: State, a: WorkerAction, e: nat)
    requires QueueSound(s) && WorkerEnabled(s, a) && e < |s.expenses|
    requires Subject(s, a) < |s.runs| == |WorkerNext(s, a).runs|
    requires s.runs[Subject(s, a)].target == ForExpense(e) && Outstanding(WorkerNext(s, a), Subject(s, a))
    ensures Subject(s, a) in WorkerNext(s, a).late
            || (Outstanding(s, Subject(s, a)) && |WorkerNext(s, a).expenses| == |s.expenses|
                && (InFlight(s.expenses[e]) ==> InFlight(WorkerNext(s, a).expenses[e])))
  {
    if IsMove(a) {
      OwnMove(s, a, e);
    } else if a.FailRun? {
      OwnFailure(s, a.w, e);
    } else if a.ClaimRun? || a.Requeue? {
      OthersLeaveExpenses(s, a);
    } else {
      OwnEnding(s, a, e);
    }
  }

  lemma OwnMove(s: State, a: WorkerAction, e: nat)
    requires QueueSound(s) && WorkerEnabled(s, a) && IsMove(a) && e < |s.expenses|
    requires s.runs[Subject(s, a)].target == ForExpense(e) && Outstanding(WorkerNext(s, a), Subject(s, a))
    ensures Outstanding(s, Subject(s, a)) && |WorkerNext(s, a).expenses| == |s.expenses| && (InFlight(s.expenses[e]) ==>
            InFlight(WorkerNext(s, a).expenses[e]))
  {
    var u := WorkerNext(s, a);
    var r := Subject(s, a);
    MoveShape(s, a);
    assert u.workers[a.w].run == r;
    assert !u.workers[a.w].step.Done?;
    assert forall v :: v in s.workers && s.workers[v].run == r ==> v == a.w;
  }

  lemma OwnFailure(s: State, w: nat, e: nat)
    requires QueueSound(s) && WorkerEnabled(s, FailRun(w))
    ensures s.workers[w].run in DoFailRun(s, w).late
            || (Outstanding(s, s.workers[w].run) && DoFailRun(s, w).expenses == s.expenses)
  {
  }

  lemma OwnEnding(s: State, a: WorkerAction, e: nat)
    requires QueueSound(s) && WorkerEnabled(s, a) && (a.Finish? || a.Handle? || a.Crash?)
    requires Subject(s, a) < |WorkerNext(s, a).runs| && Outstanding(WorkerNext(s, a), Subject(s, a))
    ensures Subject(s, a) in WorkerNext(s, a).late
            || (Outstanding(s, Subject(s, a)) && WorkerNext(s, a).expenses == s.expenses)
  {
  }

  lemma WorkerCleanOwn(s: State, a: WorkerAction, e: nat)
    requires QueueSound(s) && HistorySound(s) && CleanSound(s) && WorkerEnabled(s, a) && e < |s.expenses|
    requires Subject(s, a) < |s.runs| == |WorkerNext(s, a).runs| && |WorkerNext(s, a).expenses| == |s.expenses|
    requires s.runs[Subject(s, a)].target == ForExpense(e) && Clean(WorkerNext(s, a), e)
    ensures CleanFits(WorkerNext(s, a), e, Subject(s, a))
  {
    var u := WorkerNext(s, a);
    var r := Subject(s, a);
    CleanBefore(s, ByWorker(a), e);
    QueueTargets(s, a);
    if Outstanding(u, r) {
      OwnOutstanding(s, a, e);
      assert CleanFits(s, e, r);
      WorkerKeepsLatest(s, a, e, r);
    }
  }

  lemma WorkerCleanOther(s: State, a: WorkerAction, e: nat, r: nat)
    requires QueueSound(s) && HistorySound(s) && CleanSound(s) && WorkerEnabled(s, a) && e < |s.expenses|
    requires r < |s.runs|
    requires r != Subject(s, a) && r < |WorkerNext(s, a).runs| && |WorkerNext(s, a).expenses| == |s.expenses|
    requires s.runs[r].target == ForExpense(e) && Clean(WorkerNext(s, a), e)
    ensures CleanFits(WorkerNext(s, a), e, r)
  {
    CleanBefore(s, ByWorker(a), e);
    OtherOutstanding(s, a, r);
    if Outstanding(s, r) {
      assert CleanFits(s, e, r);
      WorkerKeepsLatest(s, a, e, r);
      WorkerRow(s, a);
      if WorkerNext(s, a).expenses[e] != s.expenses[e] {
        WriterIsOutstanding(s, a);
        assert CleanFits(s, e, Subject(s, a));
        LatestIsUnique(s.runs, e, r, Subject(s, a));
      }
    }
  }

  lemma WorkerKeepsClean(s: State, a: WorkerAction)
    requires QueueSound(s) && HistorySound(s) && CleanSound(s) && WorkerEnabled(s, a)
    ensures CleanSound(WorkerNext(s, a))
  {
    var u := WorkerNext(s, a);
    WorkerRowsStep(s, a);
    QueueTargets(s, a);
    RunsDifferAtSubject(s, a);
    forall e: nat, r: nat | e < |u.expenses| && r < |u.runs| && u.runs[r].target == ForExpense(e) && Clean(u, e)
      ensures CleanFits(u, e, r)
    {
      if r == Subject(s, a) {
        WorkerCleanOwn(s, a, e);
      } else {
        WorkerCleanOther(s, a, e, r);
      }
    }
  }

  lemma CleanStep(s: State, a: Action)
    requires QueueSound(s) && LocksSound(s) && HistorySound(s) && CleanSound(s) && Enabled(s, a)
    ensures CleanSound(Next(s, a))
  {
    match a
    case ByUser(u) => UserKeepsClean(s, u);
    case ByWorker(v) => WorkerKeepsClean(s, v);
  }

  // ---------------------------------------------------------------- a lost expense stays lost

  lemma AbandonedIsIdle(s: State, a: WorkerAction, r: nat)
    requires WorkerEnabled(s, a) && r < |s.runs| && Abandoned(s, r)
    ensures r != Subject(s, a) && !Outstanding(s, r)
  {
  }

  lemma StrandedStep(s: State, a: Action, e: nat)
    requires QueueSound(s) && LocksSound(s) && CleanSound(s) && Enabled(s, a) && Stranded(s, e) && Clean(s, e)
    ensures Stranded(Next(s, a), e)
  {
    var r: nat :| IsLatest(s.runs, e, r) && Abandoned(s, r);
    match a
    case ByUser(u) =>
      UserLeavesInFlight(s, u, e);
      OldRunStaysLatest(s, u, e, r);
      RunsExtend(s, u);
      UserLeavesWork(s, u);
      assert UserNext(s, u).runs[r] == UserNext(s, u).runs[..|s.runs|][r];
      assert Abandoned(UserNext(s, u), r);
    case ByWorker(v) =>
      AbandonedIsIdle(s, v, r);
      OtherRunsStay(s, v, r);
      WorkerKeepsLatest(s, v, e, r);
      WorkerRow(s, v);
      if WorkerNext(s, v).expenses[e] != s.expenses[e] {
        WriterIsOutstanding(s, v);
        assert CleanFits(s, e, Subject(s, v));
        LatestIsUnique(s.runs, e, r, Subject(s, v));
      }
  }

  lemma SoundSteps(s: State, a: Action)
    requires QueueSound(s) && LocksSound(s) && HistorySound(s) && CleanSound(s) && Enabled(s, a)
    ensures QueueSound(Next(s, a)) && LocksSound(Next(s, a)) && HistorySound(Next(s, a)) && CleanSound(Next(s, a))
  {
    QueueStep(s, a);
    LocksStep(s, a);
    HistoryStep(s, a);
    CleanStep(s, a);
  }

  lemma {:induction false} CleanAllAlong(s: State, acts: seq<Action>, e: nat)
    requires QueueSound(s) && LocksSound(s) && HistorySound(s) && CleanSound(s) && Path(s, acts)
    requires Clean(After(s, acts), e)
    ensures Clean(s, e)
    decreases |acts|
  {
    if acts != [] {
      SoundSteps(s, acts[0]);
      CleanAllAlong(Next(s, acts[0]), acts[1..], e);
      CleanBefore(s, acts[0], e);
    }
  }

  /** A lost expense with clean runs stays lost whatever anybody does: no request and no worker moves it again. */
  lemma {:induction false} StrandedForever(s: State, acts: seq<Action>, e: nat)
    requires QueueSound(s) && LocksSound(s) && HistorySound(s) && CleanSound(s) && Path(s, acts)
    requires Stranded(s, e) && Clean(After(s, acts), e)
    ensures Stranded(After(s, acts), e)
    decreases |acts|
  {
    if acts != [] {
      CleanAllAlong(s, acts, e);
      StrandedStep(s, acts[0], e);
      SoundSteps(s, acts[0]);
      StrandedForever(Next(s, acts[0]), acts[1..], e);
    }
  }
}
