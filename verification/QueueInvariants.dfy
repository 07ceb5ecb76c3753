/** What every step keeps of the job queue: attempts, ownership, and the records that point into it. */
module QueueInvariants {
  import opened Common
  import opened Rules
  import opened Ledger
  import opened Workflow

  // ---------------------------------------------------------------- attempts and ownership

  /** The bound on attempts, status by status. */
  predicate AttemptFits(r: Run) {
    match r.status
    case Queued => r.attempt < MAX_ATTEMPTS
    case Running => 1 <= r.attempt <= MAX_ATTEMPTS
    case Succeeded => 1 <= r.attempt <= MAX_ATTEMPTS
    case Failed => r.attempt == MAX_ATTEMPTS
  }

  predicate PastGate(x: Step) {
    x.Gated? || x.DuplicatesRead? || x.BudgetRead?
  }

  ghost predicate RunsFit(s: State) {
    forall r :: 0 <= r < |s.runs| ==>
      && AttemptFits(s.runs[r])
      && match s.runs[r].target
         case ForExpense(e) => e < |s.expenses|
         case ForReport(p) => p < |s.reports|
  }

  /** A worker's run is running until the worker has failed it; only pipelines get past the gate. */
  ghost predicate WorkersFit(s: State) {
    && (forall w :: w in s.workers ==>
          && s.workers[w].run < |s.runs|
          && s.runs[s.workers[w].run].status == (if s.workers[w].step.Handling? then Failed else Running)
          && (PastGate(s.workers[w].step) ==> s.runs[s.workers[w].run].target.ForExpense?))
    && (forall w, v :: w in s.workers && v in s.workers && w != v ==> s.workers[w].run != s.workers[v].run)
  }

  ghost predicate QueueSound(s: State) {
    RunsFit(s) && WorkersFit(s)
  }

  /** The tables a request leaves alone, or only extends. */
  predicate QueueUntouched(s: State, u: State) {
    && u.runs == s.runs && u.workers == s.workers
    && |s.expenses| <= |u.expenses| && |s.reports| <= |u.reports|
  }

  lemma UntouchedKeepsQueue(s: State, u: State)
    requires QueueSound(s) && QueueUntouched(s, u)
    ensures QueueSound(u)
  {
  }

  lemma AppendKeepsQueue(s: State, u: State, r: Run)
    requires QueueSound(s) && u.runs == s.runs + [r] && u.workers == s.workers
    requires |s.expenses| <= |u.expenses| && |s.reports| <= |u.reports|
    requires r.status == Queued && r.attempt == 0
    requires match r.target case ForExpense(e) => e < |u.expenses| case ForReport(p) => p < |u.reports|
    ensures QueueSound(u)
  {
  }

  /** A run changes status (and perhaps attempt) while no worker, or only the given one, stands on it. */
  lemma StatusKeepsQueue(s: State, u: State, r: nat, status: RunStatus)
    requires QueueSound(s) && r < |s.runs| && u.runs == s.runs[r := s.runs[r].(status := status)]
    requires u.workers.Keys <= s.workers.Keys && forall v :: v in u.workers ==>
            u.workers[v] == s.workers[v] && s.workers[v].run != r
    requires AttemptFits(s.runs[r].(status := status))
    requires |s.expenses| == |u.expenses| && |s.reports| == |u.reports|
    ensures QueueSound(u)
  {
  }

  lemma MoveKeepsQueue(s: State, u: State, w: nat, x: Step)
    requires QueueSound(s) && w in s.workers && !s.workers[w].step.Handling? && !x.Handling?
    requires u.runs == s.runs && u.workers == s.workers[w := s.workers[w].(step := x)]
    requires PastGate(x) ==> s.runs[s.workers[w].run].target.ForExpense?
    requires |s.expenses| == |u.expenses| && |s.reports| == |u.reports|
    ensures QueueSound(u)
  {
  }

  lemma LeaveKeepsQueue(s: State, u: State, w: nat)
    requires QueueSound(s) && u.runs == s.runs && u.workers == s.workers - {w}
    requires |s.expenses| == |u.expenses| && |s.reports| == |u.reports|
    ensures QueueSound(u)
  {
  }

  lemma UserFrame(s: State, a: UserAction)
    requires UserEnabled(s, a) && !a.Submit? && !a.CreateReport?
    ensures QueueUntouched(s, UserNext(s, a))
  {
  }

  lemma UserKeepsQueue(s: State, a: UserAction)
    requires QueueSound(s) && UserEnabled(s, a)
    ensures QueueSound(UserNext(s, a))
  {
    if a.Submit? {
      var u := DoSubmit(s, a.e);
      AppendKeepsQueue(s, u, u.runs[|s.runs|]);
    } else if a.CreateReport? {
      var u := DoCreateReport(s, a.project, a.year, a.month);
      AppendKeepsQueue(s, u, u.runs[|s.runs|]);
    } else {
      UserFrame(s, a);
      UntouchedKeepsQueue(s, UserNext(s, a));
    }
  }

  lemma ClaimKeepsQueue(s: State, w: nat, r: nat)
    requires QueueSound(s) && WorkerEnabled(s, ClaimRun(w, r))
    ensures QueueSound(DoClaimRun(s, w, r))
  {
  }

  lemma LastFailureKeepsQueue(s: State, u: State, w: nat)
    requires QueueSound(s) && w in s.workers && !s.workers[w].step.Handling?
    requires u.runs == s.runs[s.workers[w].run := s.runs[s.workers[w].run].(status := Failed)]
    requires s.runs[s.workers[w].run].attempt >= MAX_ATTEMPTS
    requires u.workers == s.workers[w := s.workers[w].(step := Handling)]
    requires u.expenses == s.expenses && u.reports == s.reports
    ensures QueueSound(u)
  {
  }

  lemma FailKeepsQueue(s: State, w: nat)
    requires QueueSound(s) && WorkerEnabled(s, FailRun(w))
    ensures QueueSound(DoFailRun(s, w))
  {
    var r := s.workers[w].run;
    if s.runs[r].attempt < MAX_ATTEMPTS {
      StatusKeepsQueue(s, DoFailRun(s, w), r, Queued);
    } else {
      LastFailureKeepsQueue(s, DoFailRun(s, w), w);
    }
  }

  predicate IsMove(a: WorkerAction) {
    a.Gate? || a.ReadDuplicates? || a.ReadBudget? || a.StoreResults?
  }

  lemma PipelineKeepsQueue(s: State, a: WorkerAction)
    requires QueueSound(s) && WorkerEnabled(s, a) && IsMove(a)
    ensures QueueSound(WorkerNext(s, a))
  {
    MoveKeepsQueue(s, WorkerNext(s, a), a.w, WorkerNext(s, a).workers[a.w].step);
  }

  lemma WorkerKeepsQueue(s: State, a: WorkerAction)
    requires QueueSound(s) && WorkerEnabled(s, a)
    ensures QueueSound(WorkerNext(s, a))
  {
    if IsMove(a) {
      PipelineKeepsQueue(s, a);
    } else if a.ClaimRun? {
      ClaimKeepsQueue(s, a.w, a.r);
    } else if a.FailRun? {
      FailKeepsQueue(s, a.w);
    } else {
      EndingKeepsQueue(s, a);
    }
  }

  lemma EndingKeepsQueue(s: State, a: WorkerAction)
    requires QueueSound(s) && WorkerEnabled(s, a) && (a.Finish? || a.Handle? || a.Crash? || a.Requeue?)
    ensures QueueSound(WorkerNext(s, a))
  {
    var u := WorkerNext(s, a);
    if a.Finish? {
      StatusKeepsQueue(s, u, s.workers[a.w].run, Succeeded);
    } else if a.Requeue? {
      StatusKeepsQueue(s, u, a.r, u.runs[a.r].status);
    } else {
      LeaveKeepsQueue(s, u, a.w);
    }
  }

  lemma QueueStep(s: State, a: Action)
    requires QueueSound(s) && Enabled(s, a)
    ensures QueueSound(Next(s, a))
  {
    match a
    case ByUser(u) => UserKeepsQueue(s, u);
    case ByWorker(v) => WorkerKeepsQueue(s, v);
  }
}
