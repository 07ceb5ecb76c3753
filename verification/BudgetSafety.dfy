/** No budget is ever overspent, however many approvals race, and a budget FAIL is final. */
module BudgetSafety {
  import opened Common
  import opened Rules
  import opened Ledger
  import opened Calendar
  import opened Workflow
  import opened QueueInvariants
  import opened QueueProgress
  import opened Locks
  import opened Handover
  import opened Effects
  import opened Validation
  import opened Approvals

  /** What may be spent: the budget, or nothing where none is registered. */
  function Ceiling(s: State, project: nat, category: Category): nat
    requires project < |s.projects|
  {
    match BudgetOf(s.projects[project], category)
    case None => 0
    case Some(b) => b
  }

  ghost predicate ProjectsSound(s: State) {
    && (forall p :: 0 <= p < |s.projects| ==> DistinctCategories(s.projects[p]))
    && (forall e :: 0 <= e < |s.expenses| ==> s.expenses[e].claim.project < |s.projects|)
  }

  /** An open approval that holds the budget row knows the budget, and past its sum the current total. */
  ghost predicate HolderFits(s: State, a: Approving) {
    HoldsBudget(a) && a.expense < |s.expenses| ==>
      var c := s.expenses[a.expense].claim;
      && BudgetRow(s, c) == Some(a.stage.budget)
      && (a.stage.Summed? ==> a.stage.already == ApprovedSum(s.expenses, c.project, c.category))
  }

  ghost predicate HoldersSound(s: State) {
    forall t :: t in s.approving ==> HolderFits(s, s.approving[t])
  }

  ghost predicate WithinBudgets(s: State) {
    forall p: nat, c: Category :: p < |s.projects| ==> ApprovedSum(s.expenses, p, c) <= Ceiling(s, p, c)
  }

  ghost predicate BooksSound(s: State) {
    ProjectsSound(s) && HoldersSound(s) && WithinBudgets(s)
  }

  // ---------------------------------------------------------------- how sums move

  /** Approved rows stay, and no others are added. */
  lemma SumStays(es: seq<Expense>, fs: seq<Expense>, project: nat, category: Category)
    requires RowsStep(es, fs) && forall i :: 0 <= i < |es| && fs[i].status == Approved ==> es[i].status == Approved
    ensures ApprovedSum(fs, project, category) == ApprovedSum(es, project, category)
  {
    var q := ApprovedIn(project, category);
    SameRowsSameTotal(es, q, fs, q);
  }

  lemma SumGrows(es: seq<Expense>, fs: seq<Expense>, project: nat, category: Category)
    requires RowsStep(es, fs)
    ensures ApprovedSum(es, project, category) <= ApprovedSum(fs, project, category)
  {
    TotalsGrow(es, fs, ApprovedIn(project, category));
  }

  lemma SumAfterApproval(es: seq<Expense>, e: nat, project: nat, category: Category)
    requires e < |es| && es[e].status == NeedsReview && !es[e].deleted
    ensures ApprovedSum(WithStatus(es, e, Approved), project, category) ==
            ApprovedSum(es, project, category) + if es[e].claim.project == project && es[e].claim.category == category
                then es[e].claim.amount else 0
  {
    TotalAfterChange(es, e, es[e].(status := Approved), ApprovedIn(project, category));
  }

  // ---------------------------------------------------------------- projects

  lemma ClaimsKeepProjects(s: State, u: State)
    requires ProjectsSound(s) && RowsStep(s.expenses, u.expenses) && |u.expenses| == |s.expenses| && u.projects ==
            s.projects
    ensures ProjectsSound(u)
  {
  }

  lemma ProjectsStep(s: State, a: Action)
    requires LocksSound(s) && ProjectsSound(s) && Enabled(s, a)
    ensures ProjectsSound(Next(s, a))
    ensures |s.projects| <= |Next(s, a).projects| && Next(s, a).projects[..|s.projects|] == s.projects
  {
    StepRows(s, a);
    match a
    case ByUser(u) =>
      UserLeavesWork(s, u);
      NewRowsFit(s, u);
    case ByWorker(v) =>
      WorkerLeavesRequests(s, v);
      WorkerRowsStep(s, v);
      ClaimsKeepProjects(s, WorkerNext(s, v));
  }

  /** Only a new project and a new expense lengthen their tables. */
  lemma TablesStay(s: State, a: UserAction)
    requires UserEnabled(s, a) && !a.CreateProject? && !a.CreateExpense?
    ensures UserNext(s, a).projects == s.projects && |UserNext(s, a).expenses| == |s.expenses|
  {
    if IsApprovalStep(a) {
      ApprovalLeavesWork(s, a);
    } else {
    }
  }

  lemma NewRowsFit(s: State, a: UserAction)
    requires LocksSound(s) && ProjectsSound(s) && UserEnabled(s, a)
    ensures ProjectsSound(UserNext(s, a))
  {
    if !a.CreateProject? && !a.CreateExpense? {
      UserRowsStep(s, a);
      TablesStay(s, a);
      ClaimsKeepProjects(s, UserNext(s, a));
    }
  }

  lemma SameBudgetRow(s: State, u: State, c: Claim)
    requires |s.projects| <= |u.projects| && u.projects[..|s.projects|] == s.projects && c.project < |s.projects|
    ensures BudgetRow(u, c) == BudgetRow(s, c)
  {
  }

  // ---------------------------------------------------------------- steps that approve nothing

  predicate ApprovesNow(s: State, a: Action)
    requires Enabled(s, a)
  {
    a.ByUser? && a.user.CommitApproval? && Commits(s, a.user.t)
  }

  lemma SumsStay(s: State, a: Action, project: nat, category: Category)
    requires LocksSound(s) && Enabled(s, a) && !ApprovesNow(s, a)
    ensures ApprovedSum(Next(s, a).expenses, project, category) == ApprovedSum(s.expenses, project, category)
  {
    var u := Next(s, a);
    StepRows(s, a);
    forall i: nat | i < |s.expenses| && u.expenses[i].status == Approved ensures s.expenses[i].status == Approved {
      if s.expenses[i].status != Approved {
        NewlyApproved(s, a, i);
      }
    }
    SumStays(s.expenses, u.expenses, project, category);
  }

  lemma WithinStep(s: State, a: Action)
    requires LocksSound(s) && BooksSound(s) && Enabled(s, a) && !ApprovesNow(s, a)
    ensures WithinBudgets(Next(s, a))
  {
    var u := Next(s, a);
    ProjectsStep(s, a);
    forall p: nat, c: Category | p < |u.projects| ensures ApprovedSum(u.expenses, p, c) <= Ceiling(u, p, c) {
      SumsStay(s, a, p, c);
      if p < |s.projects| {
        assert u.projects[p] == u.projects[..|s.projects|][p];
        assert ApprovedSum(s.expenses, p, c) <= Ceiling(s, p, c);
      } else {
        NothingInNewProject(s.expenses, p, c);
      }
    }
  }

  lemma {:induction false} NothingInNewProject(es: seq<Expense>, project: nat, category: Category)
    requires forall e :: 0 <= e < |es| ==> es[e].claim.project < project
    ensures ApprovedSum(es, project, category) == 0
  {
    if es != [] {
      NothingInNewProject(es[..|es| - 1], project, category);
    }
  }

  /** The holder's expense is locked, so its claim and hence its budget row stay. */
  lemma HolderStays(s: State, a: Action, t: nat)
    requires LocksSound(s) && ProjectsSound(s) && HoldersSound(s) && Enabled(s, a) && !ApprovesNow(s, a)
    requires t in s.approving && t in Next(s, a).approving && Next(s, a).approving[t] == s.approving[t]
    ensures HolderFits(Next(s, a), s.approving[t])
  {
    var x := s.approving[t];
    var c := s.expenses[x.expense].claim;
    assert HolderFits(s, x);
    StepRows(s, a);
    LocksStep(s, a);
    assert LockedRowFits(Next(s, a), x) && LockedRowFits(s, x);
    LockedClaimStays(s, a, t);
    ProjectsStep(s, a);
    SameBudgetRow(s, Next(s, a), c);
    SumsStay(s, a, c.project, c.category);
  }

  lemma LockedClaimStays(s: State, a: Action, t: nat)
    requires LocksSound(s) && Enabled(s, a) && t in s.approving && t in Next(s, a).approving
    requires RowsStep(s.expenses, Next(s, a).expenses) && Next(s, a).approving[t] == s.approving[t]
    requires LockedRowFits(Next(s, a), s.approving[t])
    ensures Next(s, a).expenses[s.approving[t].expense].claim == s.expenses[s.approving[t].expense].claim
  {
  }

  lemma HolderAdvances(s: State, a: UserAction)
    requires LocksSound(s) && HoldersSound(s) && UserEnabled(s, a) && IsApprovalStep(a) && !a.CommitApproval?
    ensures var u := UserNext(s, a);
            || u.approving == s.approving - {a.t}
            || (a.t in u.approving && u.approving == s.approving[a.t := u.approving[a.t]]
                && HolderFits(u, u.approving[a.t]))
  {
    if a.t in s.approving {
      assert HolderFits(s, s.approving[a.t]);
    }
  }

  lemma HoldersStep(s: State, a: Action)
    requires LocksSound(s) && ProjectsSound(s) && HoldersSound(s) && Enabled(s, a) && !ApprovesNow(s, a)
    ensures HoldersSound(Next(s, a))
  {
    var u := Next(s, a);
    if a.ByUser? && IsApprovalStep(a.user) {
      if a.user.CommitApproval? {
        assert u.approving == s.approving - {a.user.t};
      } else {
        HolderAdvances(s, a.user);
      }
      forall t | t in u.approving ensures HolderFits(u, u.approving[t]) {
        if t != a.user.t {
          HolderStays(s, a, t);
        }
      }
    } else {
      ApprovingStays(s, a);
      forall t | t in u.approving ensures HolderFits(u, u.approving[t]) {
        HolderStays(s, a, t);
      }
    }
  }

  // ---------------------------------------------------------------- the step that approves

  lemma CommitWithin(s: State, t: nat)
    requires LocksSound(s) && BooksSound(s) && UserEnabled(s, CommitApproval(t)) && Commits(s, t)
    ensures WithinBudgets(DoCommitApproval(s, t))
  {
    var u := DoCommitApproval(s, t);
    var x := s.approving[t];
    assert HolderFits(s, x) && LockedRowFits(s, x);
    forall p: nat, c: Category | p < |u.projects| ensures ApprovedSum(u.expenses, p, c) <= Ceiling(u, p, c) {
      SumAfterApproval(s.expenses, x.expense, p, c);
      assert ApprovedSum(s.expenses, p, c) <= Ceiling(s, p, c);
    }
  }

  lemma CommitKeepsHolders(s: State, t: nat)
    requires LocksSound(s) && BooksSound(s) && UserEnabled(s, CommitApproval(t)) && Commits(s, t)
    ensures HoldersSound(DoCommitApproval(s, t))
  {
    var u := DoCommitApproval(s, t);
    var x := s.approving[t];
    assert LockedRowFits(s, x);
    forall v | v in u.approving ensures HolderFits(u, u.approving[v]) {
      var y := s.approving[v];
      assert u.approving[v] == y && LockedRowFits(s, y) && HolderFits(s, y);
      assert u.expenses[y.expense].claim == s.expenses[y.expense].claim;
      if HoldsBudget(y) {
        LocksExclude(s, t, v);
        SumAfterApproval(s.expenses, x.expense, s.expenses[y.expense].claim.project,
            s.expenses[y.expense].claim.category);
      }
    }
  }

  lemma CommitKeepsProjects(s: State, t: nat)
    requires ProjectsSound(s) && UserEnabled(s, CommitApproval(t)) && Commits(s, t)
    ensures ProjectsSound(DoCommitApproval(s, t))
  {
  }

  /**
   What every step keeps, commits of racing approvals included: each holder of a budget row that
   has taken its sum still has the committed total, and no total exceeds its budget.
   */
  lemma BooksStep(s: State, a: Action)
    requires LocksSound(s) && BooksSound(s) && Enabled(s, a)
    ensures BooksSound(Next(s, a))
  {
    if ApprovesNow(s, a) {
      CommitWithin(s, a.user.t);
      CommitKeepsHolders(s, a.user.t);
      CommitKeepsProjects(s, a.user.t);
    } else {
      ProjectsStep(s, a);
      WithinStep(s, a);
      HoldersStep(s, a);
    }
  }

  /** An approved expense has a budget. */
  lemma ApprovedHasBudget(s: State, e: nat)
    requires BooksSound(s) && e < |s.expenses| && s.expenses[e].status == Approved && !s.expenses[e].deleted
    ensures BudgetRow(s, s.expenses[e].claim).Some?
  {
    var c := s.expenses[e].claim;
    RowWithinTotal(s.expenses, e, ApprovedIn(c.project, c.category));
    assert ApprovedSum(s.expenses, c.project, c.category) <= Ceiling(s, c.project, c.category);
  }

  /** The budget page shows, line by line, the sum an approval would compute, and never a negative remainder. */
  lemma BudgetPageAgrees(s: State, project: nat, k: nat)
    requires BooksSound(s) && project < |s.projects| && k < |s.projects[project]|
    ensures var b, x := s.projects[project][k], BudgetSummaries(s.expenses, project, s.projects[project])[k];
            && x.category == b.category && x.budget == b.amount && x.approved ==
                ApprovedSum(s.expenses, project, b.category)
            && x.remaining == b.amount - x.approved >= 0
  {
    var b := s.projects[project][k];
    GroupSumsAgree(s.expenses, Approved, project, None, None, b.category);
    BudgetOfFinds(s.projects[project], k);
    assert ApprovedSum(s.expenses, project, b.category) <= Ceiling(s, project, b.category);
  }

  // ---------------------------------------------------------------- a budget FAIL is final

  /** Nothing is registered for the claim, or it would exceed what is. */
  predicate Over(s: State, c: Claim) {
    match BudgetRow(s, c)
    case None => true
    case Some(b) => ApprovedSum(s.expenses, c.project, c.category) + c.amount > b
  }

  /** The last budget row of the category covers the amounts of the approved expenses and the claim. */
  ghost predicate FitsBudget(projects: seq<seq<Budget>>, es: seq<Expense>, c: Claim) {
    c.project < |projects| && exists k ::
      && 0 <= k < |projects[c.project]| && projects[c.project][k].category == c.category
      && (forall j :: k < j < |projects[c.project]| ==> projects[c.project][j].category != c.category)
      && SumAt(es, set i: nat | i < |es| && es[i].status == Approved && !es[i].deleted
                                && es[i].claim.project == c.project && es[i].claim.category == c.category)
         + c.amount <= projects[c.project][k].amount
  }

  lemma {:induction false} LastBudgetRow(bs: seq<Budget>, category: Category) returns (k: nat)
    requires BudgetOf(bs, category).Some?
    ensures k < |bs| && bs[k] == Budget(category, BudgetOf(bs, category).value)
    ensures forall j :: k < j < |bs| ==> bs[j].category != category
  {
    var n := |bs| - 1;
    if bs[n].category == category {
      k := n;
    } else {
      k := LastBudgetRow(bs[..n], category);
      forall j | k < j < n ensures bs[j].category != category {
        assert bs[..n][j] == bs[j];
      }
    }
  }

  lemma {:induction false} NoBudgetRow(bs: seq<Budget>, category: Category)
    requires BudgetOf(bs, category).None?
    ensures forall k :: 0 <= k < |bs| ==> bs[k].category != category
  {
    if bs != [] {
      var n := |bs| - 1;
      NoBudgetRow(bs[..n], category);
      forall k | 0 <= k < n ensures bs[k].category != category {
        assert bs[..n][k] == bs[k];
      }
    }
  }

  lemma BudgetOfIsLast(bs: seq<Budget>, category: Category)
    ensures match BudgetOf(bs, category)
            case None => forall k :: 0 <= k < |bs| ==> bs[k].category != category
            case Some(b) =>
              exists k ::
                0 <= k < |bs| && bs[k] == Budget(category, b) && forall j :: k < j < |bs| ==> bs[j].category != category
  {
    if BudgetOf(bs, category).Some? {
      var k := LastBudgetRow(bs, category);
    } else {
      NoBudgetRow(bs, category);
    }
  }

  /** A claim is not over its budget exactly if it fits, in the fields of the rows. */
  lemma FitsInFull(s: State, c: Claim)
    ensures !Over(s, c) <==> FitsBudget(s.projects, s.expenses, c)
  {
    ApprovedSumInFull(s.expenses, c.project, c.category);
    assert ApprovedRows(s.expenses, c.project, c.category) ==
           set i: nat | i < |s.expenses| && s.expenses[i].status == Approved && !s.expenses[i].deleted
                        && s.expenses[i].claim.project == c.project && s.expenses[i].claim.category == c.category;
    if c.project < |s.projects| {
      BudgetOfIsLast(s.projects[c.project], c.category);
    }
  }

  lemma OverStep(s: State, a: Action, c: Claim)
    requires LocksSound(s) && ProjectsSound(s) && Enabled(s, a) && c.project < |s.projects| && Over(s, c)
    ensures c.project < |Next(s, a).projects| && Over(Next(s, a), c)
  {
    ProjectsStep(s, a);
    SameBudgetRow(s, Next(s, a), c);
    StepRows(s, a);
    SumGrows(s.expenses, Next(s, a).expenses, c.project, c.category);
  }

  /** Whatever override it carries, an approval that would exceed the budget does not go through. */
  lemma ApprovedIsNotOver(s: State, a: Action, e: nat)
    requires LocksSound(s) && BooksSound(s) && Enabled(s, a) && e < |Next(s, a).expenses|
    requires Next(s, a).expenses[e].status == Approved
    requires e < |s.expenses| ==> s.expenses[e].status != Approved
    ensures e < |s.expenses| && Next(s, a).expenses[e].claim == s.expenses[e].claim && !Over(s, s.expenses[e].claim)
  {
    NewlyApproved(s, a, e);
    assert HolderFits(s, s.approving[a.user.t]);
    CommitKeepsClaims(s, a.user.t);
  }

  lemma CommitKeepsClaims(s: State, t: nat)
    requires UserEnabled(s, CommitApproval(t))
    ensures |DoCommitApproval(s, t).expenses| == |s.expenses|
    ensures forall e :: 0 <= e < |s.expenses| ==> DoCommitApproval(s, t).expenses[e].claim == s.expenses[e].claim
  {
  }

  /** From a state in which a claim exceeds its budget no run ever approves an expense with that claim. */
  lemma {:induction false} OverIsFinal(s: State, acts: seq<Action>, c: Claim, e: nat)
    requires LocksSound(s) && BooksSound(s) && Path(s, acts) && c.project < |s.projects| && Over(s, c)
    requires e < |After(s, acts).expenses| && After(s, acts).expenses[e].status == Approved
    requires After(s, acts).expenses[e].claim == c
    ensures e < |s.expenses| && s.expenses[e].status == Approved && s.expenses[e].claim == c
    decreases |acts|
  {
    if acts != [] {
      var u := Next(s, acts[0]);
      LocksStep(s, acts[0]);
      BooksStep(s, acts[0]);
      OverStep(s, acts[0], c);
      OverIsFinal(u, acts[1..], c, e);
      if !(e < |s.expenses| && s.expenses[e].status == Approved) {
        ApprovedIsNotOver(s, acts[0], e);
      } else {
        StaysApproved(s, acts[0], e);
      }
    }
  }

  // ---------------------------------------------------------------- from the stored verdict to the books

  /** A worker's and a result set's budget figures: the budget is the current one, the sum was once current. */
  ghost predicate FiguresFit(s: State, c: Claim, budget: Option<nat>, approved: int) {
    c.project < |s.projects| && budget == BudgetRow(s, c) && approved <= ApprovedSum(s.expenses, c.project, c.category)
  }

  ghost predicate StepFigures(s: State, x: Step) {
    && (PastGate(x) ==> x.claim.project < |s.projects|)
    && (x.BudgetRead? ==> FiguresFit(s, x.claim, x.budget, x.approved))
  }

  ghost predicate FiguresSound(s: State) {
    && (forall w :: w in s.workers ==> StepFigures(s, s.workers[w].step))
    && (forall r :: r in s.contexts ==>
        FiguresFit(s, s.contexts[r].claim, s.contexts[r].budget, s.contexts[r].approved))
  }

  lemma FiguresStay(s: State, a: Action, c: Claim, budget: Option<nat>, approved: int)
    requires LocksSound(s) && ProjectsSound(s) && Enabled(s, a) && FiguresFit(s, c, budget, approved)
    ensures FiguresFit(Next(s, a), c, budget, approved)
  {
    ProjectsStep(s, a);
    SameBudgetRow(s, Next(s, a), c);
    StepRows(s, a);
    SumGrows(s.expenses, Next(s, a).expenses, c.project, c.category);
  }

  lemma StepFiguresStay(s: State, a: Action, x: Step)
    requires LocksSound(s) && ProjectsSound(s) && Enabled(s, a) && StepFigures(s, x)
    ensures StepFigures(Next(s, a), x)
  {
    ProjectsStep(s, a);
    if x.BudgetRead? {
      FiguresStay(s, a, x.claim, x.budget, x.approved);
    }
  }

  /** A worker's step afterwards is its own from before, or one with fitting figures. */
  lemma WorkerFigures(s: State, a: WorkerAction, w: nat)
    requires QueueSound(s) && ProjectsSound(s) && FiguresSound(s) && WorkerEnabled(s, a)
    requires w in WorkerNext(s, a).workers
    ensures StepFigures(s, WorkerNext(s, a).workers[w].step)
  {
    if w in s.workers {
      assert StepFigures(s, s.workers[w].step);
    }
    if IsMove(a) {
      MoveFigures(s, a);
      MoveShape(s, a);
    } else if a.FailRun? {
      FailShape(s, a.w);
    } else if a.ClaimRun? || a.Requeue? {
    } else {
      EndShape(s, a);
    }
  }

  lemma MoveFigures(s: State, a: WorkerAction)
    requires ProjectsSound(s) && FiguresSound(s) && WorkerEnabled(s, a) && IsMove(a)
    ensures a.w in WorkerNext(s, a).workers && StepFigures(s, WorkerNext(s, a).workers[a.w].step)
  {
    assert StepFigures(s, s.workers[a.w].step);
  }

  lemma FiguresStep(s: State, a: Action)
    requires QueueSound(s) && LocksSound(s) && ProjectsSound(s) && FiguresSound(s) && Enabled(s, a)
    ensures FiguresSound(Next(s, a))
  {
    var u := Next(s, a);
    match a {
      case ByUser(v) => UserLeavesWork(s, v);
      case ByWorker(v) => WorkerHistory(s, v);
    }
    forall w | w in u.workers ensures StepFigures(u, u.workers[w].step) {
      if a.ByWorker? {
        WorkerFigures(s, a.worker, w);
      }
      StepFiguresStay(s, a, u.workers[w].step);
    }
    forall r | r in u.contexts ensures FiguresFit(u, u.contexts[r].claim, u.contexts[r].budget,
        u.contexts[r].approved) {
      if a.ByWorker? && a.worker.StoreResults? {
        assert StepFigures(s, s.workers[a.worker.w].step);
      }
      FiguresStay(s, a, u.contexts[r].claim, u.contexts[r].budget, u.contexts[r].approved);
    }
  }

  predicate BudgetFailed(rs: seq<Result>) {
    exists i :: 0 <= i < |rs| && rs[i].code == BGT001 && rs[i].severity == Fail
  }

  lemma BudgetFailMeansOver(s: State, e: nat, r: nat)
    requires LatestSound(s) && FiguresSound(s) && e < |s.expenses| && Reviewed(s.expenses[e])
    requires LatestRun(s.runs, e) == Some(r)
    requires BudgetFailed(LatestResults(s, e))
    ensures s.expenses[e].claim.project < |s.projects| && Over(s, s.expenses[e].claim)
  {
    ShownResultsAreCurrent(s, e, r);
    var rs := LatestResults(s, e);
    var i :| 0 <= i < |rs| && rs[i].code == BGT001 && rs[i].severity == Fail;
    assert rs[i] in rs;
    if r in s.contexts {
      BudgetVerdict(s.contexts[r]);
    }
  }

  /**
   An expense under review that is shown a budget FAIL is never approved, with or without override:
   if it is approved in any later state, its fields have been changed in between.
   */
  lemma BudgetFailIsFinal(s: State, acts: seq<Action>, e: nat)
    requires LocksSound(s) && BooksSound(s) && LatestSound(s) && FiguresSound(s) && Path(s, acts)
    requires e < |s.expenses| && s.expenses[e].status == NeedsReview && BudgetFailed(LatestResults(s, e))
    requires e < |After(s, acts).expenses| && After(s, acts).expenses[e].status == Approved
    ensures After(s, acts).expenses[e].claim != s.expenses[e].claim
  {
    if After(s, acts).expenses[e].claim == s.expenses[e].claim {
      BudgetFailMeansOver(s, e, LatestRun(s.runs, e).value);
      OverIsFinal(s, acts, s.expenses[e].claim, e);
    }
  }
}
