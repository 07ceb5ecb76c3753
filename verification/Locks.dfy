/** Mutual exclusion: one open approval per expense, one budget holder per project and category. */
module Locks {
  import opened Common
  import opened Rules
  import opened Ledger
  import opened Workflow

  ghost predicate LocksSound(s: State) {
    && (forall t :: t in s.approving ==> LockedRowFits(s, s.approving[t]))
    && (forall t, v :: t in s.approving && v in s.approving && t != v ==>
        s.approving[t].expense != s.approving[v].expense)
    && (forall t, v ::
          t in s.approving && v in s.approving && t != v && HoldsBudget(s.approving[t])
              && HoldsBudget(s.approving[v]) ==>
          !SameBudget(s.expenses[s.approving[t].expense].claim, s.expenses[s.approving[v].expense].claim))
  }

  predicate SameBudget(a: Claim, b: Claim) {
    a.project == b.project && a.category == b.category
  }

  /** The locked expense is a live one under review. */
  predicate LockedRowFits(s: State, a: Approving) {
    a.expense < |s.expenses| && s.expenses[a.expense].status == NeedsReview && !s.expenses[a.expense].deleted
  }

  /** The locked rows are as they were. */
  ghost predicate LockedUnchanged(s: State, u: State) {
    && |s.expenses| <= |u.expenses|
    && forall t :: t in u.approving && t in s.approving && s.approving[t].expense < |s.expenses| ==>
         u.expenses[s.approving[t].expense] == s.expenses[s.approving[t].expense]
  }

  lemma UnchangedKeepsLocks(s: State, u: State)
    requires LocksSound(s) && u.approving == s.approving && LockedUnchanged(s, u)
    ensures LocksSound(u)
  {
  }

  lemma ReleaseKeepsLocks(s: State, u: State, t: nat)
    requires LocksSound(s) && u.approving == s.approving - {t} && LockedUnchanged(s, u)
    ensures LocksSound(u)
  {
  }

  lemma AdvanceKeepsLocks(s: State, t: nat, x: Stage)
    requires LocksSound(s) && t in s.approving
    requires x.BudgetHeld? || x.Summed? ==>
               HoldsBudget(s.approving[t]) ||
               BudgetFree(s, s.expenses[s.approving[t].expense].claim.project,
                   s.expenses[s.approving[t].expense].claim.category)
    ensures LocksSound(Advance(s, t, x))
  {
  }

  lemma OpenKeepsLocks(s: State, a: UserAction)
    requires LocksSound(s) && UserEnabled(s, a) && a.OpenApproval?
    ensures LocksSound(UserNext(s, a))
  {
  }

  predicate IsApprovalStep(a: UserAction) {
    a.OpenApproval? || a.ReadResults? || a.LockBudget? || a.SumApproved? || a.CommitApproval? || a.AbortApproval?
  }

  lemma RequestLeavesLocked(s: State, a: UserAction)
    requires LocksSound(s) && UserEnabled(s, a) && !IsApprovalStep(a)
    ensures UserNext(s, a).approving == s.approving && LockedUnchanged(s, UserNext(s, a))
  {
  }

  lemma UserKeepsLocks(s: State, a: UserAction)
    requires LocksSound(s) && UserEnabled(s, a)
    ensures LocksSound(UserNext(s, a))
  {
    if !IsApprovalStep(a) {
      RequestLeavesLocked(s, a);
      UnchangedKeepsLocks(s, UserNext(s, a));
    } else if a.OpenApproval? {
      OpenKeepsLocks(s, a);
    } else if UserNext(s, a).approving == s.approving - {a.t} {
      ReleaseKeepsLocks(s, UserNext(s, a), a.t);
    } else {
      var x := UserNext(s, a).approving[a.t].stage;
      AdvanceKeepsLocks(s, a.t, x);
    }
  }

  predicate MayWrite(a: WorkerAction) {
    a.Gate? || a.StoreResults? || a.Handle?
  }

  lemma OthersLeaveExpenses(s: State, a: WorkerAction)
    requires WorkerEnabled(s, a) && !MayWrite(a)
    ensures WorkerNext(s, a).approving == s.approving && WorkerNext(s, a).expenses == s.expenses
  {
  }

  lemma WritersLeaveLocked(s: State, a: WorkerAction)
    requires LocksSound(s) && WorkerEnabled(s, a) && MayWrite(a)
    ensures WorkerNext(s, a).approving == s.approving && LockedUnchanged(s, WorkerNext(s, a))
  {
    if a.Handle? {
    } else if a.Gate? {
    } else {
    }
  }

  lemma WorkerLeavesLocked(s: State, a: WorkerAction)
    requires LocksSound(s) && WorkerEnabled(s, a)
    ensures WorkerNext(s, a).approving == s.approving && LockedUnchanged(s, WorkerNext(s, a))
  {
    if MayWrite(a) {
      WritersLeaveLocked(s, a);
    } else {
      OthersLeaveExpenses(s, a);
    }
  }

  lemma LocksStep(s: State, a: Action)
    requires LocksSound(s) && Enabled(s, a)
    ensures LocksSound(Next(s, a))
  {
    match a
    case ByUser(u) => UserKeepsLocks(s, u);
    case ByWorker(v) =>
      WorkerLeavesLocked(s, v);
      UnchangedKeepsLocks(s, WorkerNext(s, v));
  }

  /** Two managers never hold the same expense, nor two approvals the same budget row. */
  lemma LocksExclude(s: State, t: nat, v: nat)
    requires LocksSound(s) && t in s.approving && v in s.approving && t != v
    ensures s.approving[t].expense != s.approving[v].expense
    ensures HoldsBudget(s.approving[t]) && HoldsBudget(s.approving[v]) ==>
              !SameBudget(s.expenses[s.approving[t].expense].claim, s.expenses[s.approving[v].expense].claim)
  {
  }
}
