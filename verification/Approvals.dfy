/** What an approval rests on: the results its manager was shown, the override and the comment. */
module Approvals {
  import opened Common
  import opened Rules
  import opened Ledger
  import opened Workflow
  import opened QueueInvariants
  import opened QueueProgress
  import opened Locks
  import opened Handover
  import opened Effects
  import opened LostExpenses
  import opened Validation
  import opened CleanRuns

  // ---------------------------------------------------------------- how the shown results move

  lemma SameLatestRun(a: seq<Run>, b: seq<Run>, e: nat)
    requires forall r: nat :: IsLatest(a, e, r) <==> IsLatest(b, e, r)
    ensures LatestRun(a, e) == LatestRun(b, e)
  {
    match LatestRun(a, e)
    case Some(r) =>
      LatestRunIsLatest(a, e, r);
      LatestRunIsLatest(b, e, r);
    case None =>
      if LatestRun(b, e).Some? {
        LatestRunIsLatest(b, e, LatestRun(b, e).value);
        LatestRunIsLatest(a, e, LatestRun(b, e).value);
      }
  }

  /** Only its own submission changes what is shown of an expense. */
  lemma UserKeepsResults(s: State, a: UserAction, e: nat)
    requires UserEnabled(s, a) && a != Submit(e)
    ensures LatestResults(UserNext(s, a), e) == LatestResults(s, e)
  {
    UserLeavesWork(s, a);
    forall r: nat ensures IsLatest(UserNext(s, a).runs, e, r) <==> IsLatest(s.runs, e, r) {
      if a.Submit? || a.CreateReport? {
        LatestAfterAppend(s.runs, UserNext(s, a).runs[|s.runs|], e, r);
      }
    }
    SameLatestRun(s.runs, UserNext(s, a).runs, e);
  }

  /** A worker adds what it stores if it holds the newest run. */
  lemma WorkerAddsResults(s: State, a: WorkerAction, e: nat)
    requires QueueSound(s) && WorkerEnabled(s, a)
    ensures LatestResults(WorkerNext(s, a), e) ==
            LatestResults(s, e) + if Patient(s, a) == e && IsLatest(s.runs, e, Subject(s, a)) then Stored(s, a) else []
  {
    forall r: nat ensures IsLatest(WorkerNext(s, a).runs, e, r) <==> IsLatest(s.runs, e, r) {
      WorkerKeepsLatest(s, a, e, r);
    }
    SameLatestRun(s.runs, WorkerNext(s, a).runs, e);
    if LatestRun(s.runs, e).Some? {
      var r := LatestRun(s.runs, e).value;
      LatestRunIsLatest(s.runs, e, r);
      WorkerLeavesRequests(s, a);
      ResultsAfterAppend(s.rows, Stored(s, a), Patient(s, a), Subject(s, a), e, r);
      if IsLatest(s.runs, e, Subject(s, a)) {
        LatestIsUnique(s.runs, e, r, Subject(s, a));
      }
    } else if IsLatest(s.runs, e, Subject(s, a)) {
      LatestRunIsLatest(s.runs, e, Subject(s, a));
    }
  }

  // ---------------------------------------------------------------- open approvals

  /** Past the check an open approval knows whether a FAIL is shown, and has what a FAIL asks for. */
  ghost predicate CheckHolds(s: State, a: Approving) {
    !a.stage.Opened? ==>
      && (a.stage.fails <==> HasFail(LatestResults(s, a.expense)))
      && (a.stage.fails ==> a.override)
      && (a.override ==> !Blank(a.comment))
  }

  ghost predicate ChecksSound(s: State) {
    forall t :: t in s.approving ==> CheckHolds(s, s.approving[t])
  }

  lemma LockedResultsStay(s: State, a: Action, t: nat)
    requires QueueSound(s) && LocksSound(s) && Enabled(s, a) && t in s.approving
    ensures LatestResults(Next(s, a), s.approving[t].expense) == LatestResults(s, s.approving[t].expense)
  {
    var e := s.approving[t].expense;
    match a
    case ByUser(u) =>
      if u != Submit(e) {
        UserKeepsResults(s, u, e);
      }
    case ByWorker(v) =>
      WorkerAddsResults(s, v, e);
      if Patient(s, v) == e && IsLatest(s.runs, e, Subject(s, v)) {
        LockedIsNotStored(s, v, t);
      }
  }

  lemma LockedIsNotStored(s: State, a: WorkerAction, t: nat)
    requires QueueSound(s) && LocksSound(s) && WorkerEnabled(s, a) && t in s.approving
    requires Patient(s, a) == s.approving[t].expense
    requires IsLatest(s.runs, s.approving[t].expense, Subject(s, a))
    ensures Stored(s, a) == []
  {
  }

  /** A step of an approval ends it, or leaves it with a check that holds. */
  lemma ApprovalStepShape(s: State, a: UserAction)
    requires ChecksSound(s) && UserEnabled(s, a) && IsApprovalStep(a)
    ensures var u := UserNext(s, a);
            || u.approving == s.approving - {a.t}
            || (a.t in u.approving && u.approving == s.approving[a.t := u.approving[a.t]]
                && CheckHolds(s, u.approving[a.t]))
  {
    if a.t in s.approving {
      assert CheckHolds(s, s.approving[a.t]);
    }
  }

  lemma ApprovalStepChecks(s: State, a: UserAction)
    requires ChecksSound(s) && UserEnabled(s, a) && IsApprovalStep(a)
    ensures ChecksSound(UserNext(s, a))
  {
    var u := UserNext(s, a);
    ApprovalStepShape(s, a);
    ApprovalLeavesWork(s, a);
    forall t | t in u.approving ensures CheckHolds(u, u.approving[t]) {
      assert t != a.t ==> CheckHolds(s, s.approving[t]);
    }
  }

  lemma ApprovingStays(s: State, a: Action)
    requires LocksSound(s) && Enabled(s, a) && (a.ByUser? ==> !IsApprovalStep(a.user))
    ensures Next(s, a).approving == s.approving
  {
    match a
    case ByUser(u) => RequestLeavesLocked(s, u);
    case ByWorker(v) => WorkerLeavesLocked(s, v);
  }

  lemma ChecksStep(s: State, a: Action)
    requires QueueSound(s) && LocksSound(s) && ChecksSound(s) && Enabled(s, a)
    ensures ChecksSound(Next(s, a))
  {
    if a.ByUser? && IsApprovalStep(a.user) {
      ApprovalStepChecks(s, a.user);
    } else {
      ApprovingStays(s, a);
      forall t | t in s.approving ensures CheckHolds(Next(s, a), s.approving[t]) {
        LockedResultsStay(s, a, t);
        assert CheckHolds(s, s.approving[t]);
      }
    }
  }

  // ---------------------------------------------------------------- reviewed expenses

  /** Something is shown of every reviewed expense with clean runs. */
  ghost predicate ShownSound(s: State) {
    forall e: nat :: e < |s.expenses| && Reviewed(s.expenses[e]) && Clean(s, e) ==> LatestResults(s, e) != []
  }

  lemma ReviewedBefore(x: Expense, y: Expense)
    requires RowStep(x, y) && Reviewed(y)
    ensures Reviewed(x) || (InFlight(x) && y.status == NeedsReview)
  {
  }

  lemma UserReviewed(s: State, a: UserAction, e: nat)
    requires LocksSound(s) && UserEnabled(s, a) && e < |UserNext(s, a).expenses| && Reviewed(UserNext(s, a).expenses[e])
    ensures e < |s.expenses| && Reviewed(s.expenses[e]) && a != Submit(e)
  {
    UserRowsStep(s, a);
    assert e < |s.expenses|;
    ReviewedBefore(s.expenses[e], UserNext(s, a).expenses[e]);
    if InFlight(s.expenses[e]) {
      UserLeavesInFlight(s, a, e);
    }
  }

  /** With clean runs, the worker that brings an expense to review holds its newest run. */
  lemma ArriverIsNewest(s: State, a: WorkerAction, e: nat)
    requires QueueSound(s) && HistorySound(s) && CleanSound(s) && WorkerEnabled(s, a)
    requires e < |s.expenses| == |WorkerNext(s, a).expenses| && Clean(WorkerNext(s, a), e)
    requires Reviewed(WorkerNext(s, a).expenses[e]) && !Reviewed(s.expenses[e])
    ensures InFlight(s.expenses[e]) && WorkerNext(s, a).expenses[e].status == NeedsReview
    ensures IsLatest(s.runs, e, Subject(s, a))
  {
    WorkerRow(s, a);
    CleanBefore(s, ByWorker(a), e);
    WriterIsOutstanding(s, a);
    assert CleanFits(s, e, Subject(s, a));
  }

  lemma WorkerReviewed(s: State, a: WorkerAction, e: nat)
    requires QueueSound(s) && CycleSound(s) && LatestSound(s) && HistorySound(s) && CleanSound(s) && WorkerEnabled(s, a)
    requires e < |s.expenses| == |WorkerNext(s, a).expenses| && Clean(WorkerNext(s, a), e)
    requires Reviewed(WorkerNext(s, a).expenses[e]) && !Reviewed(s.expenses[e])
    ensures LatestResults(WorkerNext(s, a), e) != []
  {
    ArriverIsNewest(s, a, e);
    ArrivesWithResults(s, a, e);
  }

  lemma ShownStep(s: State, a: Action)
    requires QueueSound(s) && LocksSound(s) && CycleSound(s) && LatestSound(s) && HistorySound(s) && CleanSound(s)
    requires ShownSound(s) && Enabled(s, a)
    ensures ShownSound(Next(s, a))
  {
    var u := Next(s, a);
    forall e: nat | e < |u.expenses| && Reviewed(u.expenses[e]) && Clean(u, e) ensures LatestResults(u, e) != [] {
      CleanBefore(s, a, e);
      match a {
        case ByUser(v) =>
          UserReviewed(s, v, e);
          UserKeepsResults(s, v, e);
        case ByWorker(v) =>
          WorkerRowsStep(s, v);
          if Reviewed(s.expenses[e]) {
            WorkerAddsResults(s, v, e);
          } else {
            WorkerReviewed(s, v, e);
          }
      }
    }
  }

  /** With clean runs what is shown of a reviewed expense does not change any more until it is submitted anew. */
  lemma ReviewedResultsStay(s: State, a: Action, e: nat)
    requires QueueSound(s) && CleanSound(s) && Enabled(s, a) && a != ByUser(Submit(e))
    requires e < |s.expenses| && Reviewed(s.expenses[e]) && Clean(s, e)
    ensures LatestResults(Next(s, a), e) == LatestResults(s, e)
  {
    match a
    case ByUser(u) => UserKeepsResults(s, u, e);
    case ByWorker(v) =>
      WorkerAddsResults(s, v, e);
      if IsLatest(s.runs, e, Subject(s, v)) {
        assert CleanFits(s, e, Subject(s, v));
        StorerIsOutstanding(s, v);
      }
  }

  lemma StorerIsOutstanding(s: State, a: WorkerAction)
    requires QueueSound(s) && WorkerEnabled(s, a)
    ensures Stored(s, a) != [] ==> Outstanding(s, Subject(s, a))
  {
  }

  // ---------------------------------------------------------------- the log of decisions

  predicate Approves(x: Approval, e: nat) {
    x.Approval? && x.expense == e
  }

  /**
   An approval in the log is of an approved expense, with a reason if it overrode, and it overrode
   exactly if a FAIL was shown.
   */
  ghost predicate EntryFits(s: State, x: Approval) {
    x.Approval? ==>
      && x.expense < |s.expenses| && s.expenses[x.expense].status == Approved
      && (x.override ==> !Blank(x.comment))
      && (Clean(s, x.expense) ==> (x.override <==> HasFail(LatestResults(s, x.expense))))
  }

  ghost predicate Logged(log: seq<Approval>, e: nat) {
    exists k :: 0 <= k < |log| && Approves(log[k], e)
  }

  ghost predicate LogSound(s: State) {
    && (forall k :: 0 <= k < |s.approvals| ==> EntryFits(s, s.approvals[k]))
    && (forall j, k :: 0 <= j < k < |s.approvals| && s.approvals[j].Approval? && s.approvals[k].Approval? ==>
        s.approvals[j].expense != s.approvals[k].expense)
    && (forall e :: 0 <= e < |s.expenses| && s.expenses[e].status == Approved ==> Logged(s.approvals, e))
  }

  lemma StaysApproved(s: State, a: Action, e: nat)
    requires LocksSound(s) && Enabled(s, a) && e < |s.expenses| && s.expenses[e].status == Approved
    ensures e < |Next(s, a).expenses| && Next(s, a).expenses[e].status == Approved
    ensures Next(s, a).expenses[e].claim == s.expenses[e].claim
    ensures a != ByUser(Submit(e))
  {
    StepRows(s, a);
  }

  lemma EntryStays(s: State, a: Action, x: Approval)
    requires QueueSound(s) && LocksSound(s) && HistorySound(s) && CleanSound(s) && Enabled(s, a) && EntryFits(s, x)
    ensures EntryFits(Next(s, a), x)
  {
    if x.Approval? {
      StaysApproved(s, a, x.expense);
      if Clean(Next(s, a), x.expense) {
        CleanBefore(s, a, x.expense);
        ReviewedResultsStay(s, a, x.expense);
      }
    }
  }

  /** The only step that approves is the commit of an approval, and it logs itself. */
  lemma NewlyApproved(s: State, a: Action, e: nat)
    requires LocksSound(s) && Enabled(s, a) && e < |Next(s, a).expenses| && Next(s, a).expenses[e].status == Approved
    requires e < |s.expenses| ==> s.expenses[e].status != Approved
    ensures e < |s.expenses| && a.ByUser? && a.user.CommitApproval? && s.approving[a.user.t].expense == e
    ensures Commits(s, a.user.t)
  {
    match a
    case ByUser(u) => UserNewlyApproved(s, u, e);
    case ByWorker(v) => WorkerRow(s, v);
  }

  lemma UserNewlyApproved(s: State, a: UserAction, e: nat)
    requires LocksSound(s) && UserEnabled(s, a) && e < |UserNext(s, a).expenses|
    requires UserNext(s, a).expenses[e].status == Approved
    requires e < |s.expenses| ==> s.expenses[e].status != Approved
    ensures e < |s.expenses| && a.CommitApproval? && s.approving[a.t].expense == e && Commits(s, a.t)
  {
    UserRowsStep(s, a);
    if a.CommitApproval? {
    } else {
    }
  }

  /** The approval fits the budget it has summed. */
  predicate Commits(s: State, t: nat)
    requires InApproval(s, t)
  {
    s.approving[t].stage.Summed?
      && s.approving[t].stage.already + s.expenses[s.approving[t].expense].claim.amount <= s.approving[t].stage.budget
  }

  /** The log grows by committed approvals and rejections only. */
  lemma LogGrows(s: State, a: Action)
    requires Enabled(s, a)
    ensures var u := Next(s, a);
            || u.approvals == s.approvals
            || (exists x: Approval :: x.Rejection? && u.approvals == s.approvals + [x])
            || (a.ByUser? && a.user.CommitApproval? && Commits(s, a.user.t) && u == DoCommitApproval(s, a.user.t))
  {
    match a
    case ByWorker(v) => WorkerLeavesRequests(s, v);
    case ByUser(u) =>
      if u.Reject? {
        assert UserNext(s, u).approvals == s.approvals + [Rejection(u.e, u.reason)];
      } else if u.CommitApproval? {
      } else {
      }
  }

  lemma CommitLogs(s: State, t: nat)
    requires QueueSound(s) && LocksSound(s) && HistorySound(s) && ChecksSound(s) && UserEnabled(s, CommitApproval(t))
    requires Commits(s, t)
    ensures var u := DoCommitApproval(s, t);
            var x := u.approvals[|s.approvals|];
            Approves(x, s.approving[t].expense) && EntryFits(u, x)
  {
  }

  lemma {:induction false} StillLogged(log: seq<Approval>, x: Approval, e: nat)
    requires Logged(log, e) || Approves(x, e)
    ensures Logged(log + [x], e)
  {
    if Approves(x, e) {
      assert Approves((log + [x])[|log|], e);
    } else {
      var k :| 0 <= k < |log| && Approves(log[k], e);
      assert Approves((log + [x])[k], e);
    }
  }

  lemma StaysLogged(s: State, a: Action, e: nat)
    requires LocksSound(s) && LogSound(s) && Enabled(s, a)
    requires e < |Next(s, a).expenses| && Next(s, a).expenses[e].status == Approved
    ensures Logged(Next(s, a).approvals, e)
  {
    var u := Next(s, a);
    LogGrows(s, a);
    if e < |s.expenses| && s.expenses[e].status == Approved {
      assert Logged(s.approvals, e);
    } else {
      NewlyApproved(s, a, e);
    }
    if |u.approvals| > |s.approvals| {
      StillLogged(s.approvals, u.approvals[|s.approvals|], e);
    }
  }

  lemma EntriesStep(s: State, a: Action, k: nat)
    requires QueueSound(s) && LocksSound(s) && HistorySound(s) && CleanSound(s) && ChecksSound(s) && LogSound(s)
    requires Enabled(s, a) && k < |Next(s, a).approvals|
    ensures EntryFits(Next(s, a), Next(s, a).approvals[k])
  {
    LogGrows(s, a);
    if k < |s.approvals| {
      EntryStays(s, a, s.approvals[k]);
    } else if a.ByUser? && a.user.CommitApproval? && Commits(s, a.user.t) {
      CommitLogs(s, a.user.t);
    }
  }

  /** No expense is approved twice: the one whose approval commits was not approved before. */
  lemma EntriesStayDistinct(s: State, a: Action, j: nat, k: nat)
    requires LocksSound(s) && LogSound(s) && Enabled(s, a) && j < k < |Next(s, a).approvals|
    requires Next(s, a).approvals[j].Approval? && Next(s, a).approvals[k].Approval?
    ensures Next(s, a).approvals[j].expense != Next(s, a).approvals[k].expense
  {
    LogGrows(s, a);
    if k >= |s.approvals| {
      assert EntryFits(s, s.approvals[j]);
    }
  }

  lemma LogStep(s: State, a: Action)
    requires QueueSound(s) && LocksSound(s) && HistorySound(s) && CleanSound(s) && ChecksSound(s) && LogSound(s)
    requires Enabled(s, a)
    ensures LogSound(Next(s, a))
  {
    var u := Next(s, a);
    forall k: nat | k < |u.approvals| ensures EntryFits(u, u.approvals[k]) {
      EntriesStep(s, a, k);
    }
    forall j: nat, k: nat | j < k < |u.approvals| && u.approvals[j].Approval? && u.approvals[k].Approval?
      ensures u.approvals[j].expense != u.approvals[k].expense
    {
      EntriesStayDistinct(s, a, j, k);
    }
    forall e: nat | e < |u.expenses| && u.expenses[e].status == Approved ensures Logged(u.approvals, e) {
      StaysLogged(s, a, e);
    }
  }
}
