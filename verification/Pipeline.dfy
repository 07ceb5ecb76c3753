/** A pipeline and an approval that nobody disturbs, step by step through the workflow. */
module Pipeline {
  import opened Common
  import opened Rules
  import opened Ledger
  import opened Workflow
  import opened BudgetSafety

  /** The worker has just claimed run r of expense e, which nobody holds. */
  ghost predicate Starts(s: State, w: nat, r: nat, e: nat) {
    && w in s.workers && s.workers[w] == Work(r, Claimed) && r < |s.runs| && s.runs[r].target == ForExpense(e)
    && e < |s.expenses| && RowFree(s, e)
  }

  ghost predicate Awaits(s: State, e: nat) {
    Live(s, e) && InFlight(s.expenses[e])
  }

  /** Past the gate. */
  ghost function Entered(s: State, w: nat, r: nat, e: nat): State
    requires e < |s.expenses|
  {
    s.(expenses := WithStatus(s.expenses, e, Validating),
        workers := s.workers[w := Work(r, Gated(s.expenses[e].claim))])
  }

  /** The context an undisturbed pipeline judges: the fields of the expense and what the tables hold past the gate. */
  ghost function Judges(s: State, w: nat, r: nat, e: nat, around: Surroundings): Context
    requires e < |s.expenses|
  {
    var c := s.expenses[e].claim;
    var es := Entered(s, w, r, e).expenses;
    Context(e, c, BudgetRow(s, c), ApprovedSum(es, c.project, c.category), FindDuplicates(es, e, c), around)
  }

  /** Results stored on context c. */
  ghost function Filed(s: State, w: nat, r: nat, e: nat, c: Context): State
    requires e < |s.expenses|
  {
    s.(expenses := WithStatus(s.expenses, e, NeedsReview), workers := s.workers[w := Work(r, Done)],
       rows := s.rows + RowsFor(RunAll(c), e, r), contexts := s.contexts[r := c])
  }

  /** The context in the fields of the rows it was read from. */
  ghost predicate JudgedOn(es: seq<Expense>, projects: seq<seq<Budget>>, e: nat, around: Surroundings, c: Context)
    requires e < |es|
  {
    && c.expense == e && c.claim == es[e].claim && c.around == around
    && LastBudget(projects, c.claim, c.budget)
    && c.approved == SumAt(es, set i: nat | i < |es| && es[i].status == Approved && !es[i].deleted
                                            && es[i].claim.project == c.claim.project && es[i].claim.category ==
                                                c.claim.category)
    && forall d: nat :: d in c.duplicates <==>
         && d < |es| && d != e && !es[d].deleted && es[d].status != Rejected && es[d].claim.project == c.claim.project
         && c.claim.bizNo.Some? && c.claim.bizNo.value != "" && es[d].claim.bizNo == c.claim.bizNo
         && es[d].claim.amount == c.claim.amount && es[d].claim.spentAt == c.claim.spentAt
  }

  /** The amount of the last budget row of the claim's category, or none where there is no such row. */
  ghost predicate LastBudget(projects: seq<seq<Budget>>, c: Claim, budget: Option<nat>) {
    if budget == None then
      c.project < |projects| ==> forall k :: 0 <= k < |projects[c.project]| ==>
          projects[c.project][k].category != c.category
    else
      c.project < |projects| && exists k ::
        && 0 <= k < |projects[c.project]| && projects[c.project][k] == Budget(c.category, budget.value)
        && forall j :: k < j < |projects[c.project]| ==> projects[c.project][j].category != c.category
  }

  lemma BudgetRowIsLast(s: State, c: Claim)
    ensures LastBudget(s.projects, c, BudgetRow(s, c))
  {
    if c.project < |s.projects| {
      BudgetOfIsLast(s.projects[c.project], c.category);
    }
  }

  lemma SumPastGate(es: seq<Expense>, e: nat, project: nat, category: Category)
    requires e < |es| && es[e].status != Approved
    ensures ApprovedSum(WithStatus(es, e, Validating), project, category) ==
            SumAt(es, ApprovedRows(es, project, category))
  {
    TotalAfterChange(es, e, es[e].(status := Validating), ApprovedIn(project, category));
    ApprovedSumInFull(es, project, category);
  }

  lemma DuplicatesPastGate(es: seq<Expense>, e: nat, c: Claim, d: nat)
    requires e < |es|
    ensures d in FindDuplicates(WithStatus(es, e, Validating), e, c) <==>
            && d < |es| && d != e && !es[d].deleted && es[d].status != Rejected && es[d].claim.project == c.project
            && c.bizNo.Some? && c.bizNo.value != "" && es[d].claim.bizNo == c.bizNo
            && es[d].claim.amount == c.amount && es[d].claim.spentAt == c.spentAt
  {
  }

  /** What an undisturbed pipeline judges, read off the tables as they were when it started. */
  lemma JudgesInFields(s: State, w: nat, r: nat, e: nat, around: Surroundings)
    requires e < |s.expenses| && s.expenses[e].status != Approved
    ensures JudgedOn(s.expenses, s.projects, e, around, Judges(s, w, r, e, around))
  {
    var c := s.expenses[e].claim;
    BudgetRowIsLast(s, c);
    SumPastGate(s.expenses, e, c.project, c.category);
    forall d: nat {
      DuplicatesPastGate(s.expenses, e, c, d);
    }
  }

  lemma Enters(o: State, s: State, w: nat, r: nat, e: nat)
    requires Leads(o, s) && Starts(s, w, r, e) && Awaits(s, e)
    ensures Leads(o, Entered(s, w, r, e))
  {
    LeadsOn(o, s, ByWorker(Gate(w)));
    assert WithStatus(s.expenses, e, Validating)[e] == s.expenses[e].(status := Validating);
    assert DoGate(s, w) == Entered(s, w, r, e);
  }

  /** A pipeline whose expense is deleted or not in flight ends at the gate. */
  lemma TurnsBack(o: State, s: State, w: nat, r: nat, e: nat)
    requires Leads(o, s) && Starts(s, w, r, e) && !Awaits(s, e)
    ensures Leads(o, s.(workers := s.workers[w := Work(r, Done)]))
  {
    LeadsOn(o, s, ByWorker(Gate(w)));
  }

  lemma Looks(o: State, s: State, w: nat, r: nat, e: nat, c: Claim)
    requires Leads(o, s) && OnExpense(s, w) && s.workers[w] == Work(r, Gated(c)) && ExpenseOf(s, w) == e
    ensures Leads(o, s.(workers := s.workers[w := Work(r,
            BudgetRead(c, FindDuplicates(s.expenses, e, c), BudgetRow(s, c),
                ApprovedSum(s.expenses, c.project, c.category)))]))
  {
    var s1 := DoReadDuplicates(s, w);
    LeadsOn(o, s, ByWorker(ReadDuplicates(w)));
    LeadsOn(o, s1, ByWorker(ReadBudget(w)));
    assert s1 == s.(workers := s.workers[w := Work(r, DuplicatesRead(c, FindDuplicates(s.expenses, e, c)))]);
    var x := BudgetRead(c, FindDuplicates(s.expenses, e, c), BudgetRow(s, c),
        ApprovedSum(s.expenses, c.project, c.category));
    assert DoReadBudget(s1, w).workers == s.workers[w := Work(r, x)];
  }

  lemma Files(o: State, s: State, w: nat, r: nat, e: nat, around: Surroundings)
    requires Leads(o, s) && OnExpense(s, w) && s.workers[w].run == r && s.workers[w].step.BudgetRead?
    requires ExpenseOf(s, w) == e && RowFree(s, e)
    requires !s.expenses[e].deleted && s.expenses[e].status == Validating
    ensures Leads(o, Filed(s, w, r, e, ContextOf(s, w, around)))
  {
    LeadsOn(o, s, ByWorker(StoreResults(w, around)));
    assert DoStoreResults(s, w, around) == Filed(s, w, r, e, ContextOf(s, w, around));
  }

  lemma LooksAndFiles(o: State, s: State, w: nat, r: nat, e: nat, c: Claim, around: Surroundings)
    requires Leads(o, s) && OnExpense(s, w) && s.workers[w] == Work(r, Gated(c)) && ExpenseOf(s, w) == e
    requires RowFree(s, e)
    requires !s.expenses[e].deleted && s.expenses[e].status == Validating
    ensures Leads(o, Filed(s, w, r, e,
            Context(e, c, BudgetRow(s, c), ApprovedSum(s.expenses, c.project, c.category),
                FindDuplicates(s.expenses, e, c), around)))
  {
    Looks(o, s, w, r, e, c);
    var x := BudgetRead(c, FindDuplicates(s.expenses, e, c), BudgetRow(s, c),
        ApprovedSum(s.expenses, c.project, c.category));
    var s1 := s.(workers := s.workers[w := Work(r, x)]);
    Files(o, s1, w, r, e, around);
    SameFiling(s, s1, w, r, e, x, ContextOf(s1, w, around));
  }

  lemma SameFiling(s: State, u: State, w: nat, r: nat, e: nat, x: Step, c: Context)
    requires e < |s.expenses| && u == s.(workers := s.workers[w := Work(r, x)])
    ensures Filed(u, w, r, e, c) == Filed(s, w, r, e, c)
  {
  }

  lemma FiledPastGate(s: State, w: nat, r: nat, e: nat, c: Context)
    requires e < |s.expenses|
    ensures Filed(Entered(s, w, r, e), w, r, e, c) == Filed(s, w, r, e, c)
  {
  }

  /** From the claim to the stored results. */
  lemma Undisturbed(o: State, s: State, w: nat, r: nat, e: nat, around: Surroundings)
    requires Leads(o, s) && Starts(s, w, r, e) && Awaits(s, e)
    ensures Leads(o, Filed(s, w, r, e, Judges(s, w, r, e, around)))
  {
    Enters(o, s, w, r, e);
    LooksAndFiles(o, Entered(s, w, r, e), w, r, e, s.expenses[e].claim, around);
    FiledPastGate(s, w, r, e, Judges(s, w, r, e, around));
  }

  // ---------------------------------------------------------------- an approval without interruption

  /** The state once expense e is approved. */
  function ApprovedState(s: State, e: nat, override: bool, comment: Option<string>): State
    requires e < |s.expenses|
  {
    s.(expenses := WithStatus(s.expenses, e, Approved), approvals := s.approvals + [Approval(e, override, comment)])
  }

  /** The database in the middle of approval t. */
  function During(s: State, t: nat, a: Approving, stage: Stage): State {
    s.(approving := s.approving[t := a.(stage := stage)])
  }

  lemma ChecksPass(s: State, t: nat, a: Approving) returns (fails: bool)
    requires t !in s.approving && a.stage.Opened? && Live(s, a.expense) && RowFree(s, a.expense)
    requires s.expenses[a.expense].status == NeedsReview
    requires HasFail(LatestResults(s, a.expense)) ==> a.override
    requires a.override ==> !Blank(a.comment)
    ensures fails == HasFail(LatestResults(s, a.expense)) && Leads(s, During(s, t, a, Checked(fails)))
  {
    LeadsNowhere(s);
    LeadsOn(s, s, ByUser(OpenApproval(t, a.expense, a.override, a.comment)));
    var s1 := During(s, t, a, Opened);
    assert UserNext(s, OpenApproval(t, a.expense, a.override, a.comment)) == s1;
    fails := HasFail(LatestResults(s, a.expense));
    assert LatestResults(s1, a.expense) == LatestResults(s, a.expense);
    LeadsOn(s, s1, ByUser(ReadResults(t)));
    assert DoReadResults(s1, t) == During(s, t, a, Checked(fails));
  }

  lemma LockPasses(s: State, t: nat, a: Approving, fails: bool, b: nat)
    requires t !in s.approving && a.expense < |s.expenses| && Leads(s, During(s, t, a, Checked(fails)))
    requires BudgetFree(s, s.expenses[a.expense].claim.project, s.expenses[a.expense].claim.category)
    requires BudgetRow(s, s.expenses[a.expense].claim) == Some(b)
    ensures Leads(s, During(s, t, a, BudgetHeld(fails, b)))
  {
    var s2 := During(s, t, a, Checked(fails));
    LeadsOn(s, s2, ByUser(LockBudget(t)));
    assert DoLockBudget(s2, t) == During(s, t, a, BudgetHeld(fails, b));
  }

  lemma SumPasses(s: State, t: nat, a: Approving, fails: bool, b: nat, sum: nat)
    requires t !in s.approving && a.expense < |s.expenses| && Leads(s, During(s, t, a, BudgetHeld(fails, b)))
    requires var c := s.expenses[a.expense].claim; sum == ApprovedSum(s.expenses, c.project, c.category)
    ensures Leads(s, During(s, t, a, Summed(fails, b, sum)))
  {
    var s3 := During(s, t, a, BudgetHeld(fails, b));
    LeadsOn(s, s3, ByUser(SumApproved(t)));
    assert DoSumApproved(s3, t) == During(s, t, a, Summed(fails, b, sum));
  }

  lemma CommitPasses(s: State, t: nat, a: Approving, fails: bool, b: nat, sum: nat)
    requires t !in s.approving && a.expense < |s.expenses| && Leads(s, During(s, t, a, Summed(fails, b, sum)))
    requires sum + s.expenses[a.expense].claim.amount <= b
    ensures Leads(s, ApprovedState(s, a.expense, fails && a.override, a.comment))
  {
    var s4 := During(s, t, a, Summed(fails, b, sum));
    LeadsOn(s, s4, ByUser(CommitApproval(t)));
    assert s4.approving - {t} == s.approving;
  }

  lemma ApprovalLeads(s: State, t: nat, e: nat, override: bool, comment: Option<string>)
    requires t !in s.approving && Live(s, e) && RowFree(s, e) && s.expenses[e].status == NeedsReview
    requires BudgetFree(s, s.expenses[e].claim.project, s.expenses[e].claim.category)
    requires HasFail(LatestResults(s, e)) ==> override
    requires override ==> !Blank(comment)
    requires !Over(s, s.expenses[e].claim)
    ensures Leads(s, ApprovedState(s, e, HasFail(LatestResults(s, e)) && override, comment))
  {
    var a := Approving(e, override, comment, Opened);
    var fails := ChecksPass(s, t, a);
    var b := BudgetRow(s, s.expenses[e].claim).value;
    LockPasses(s, t, a, fails, b);
    var sum := ApprovedSum(s.expenses, s.expenses[e].claim.project, s.expenses[e].claim.category);
    SumPasses(s, t, a, fails, b, sum);
    CommitPasses(s, t, a, fails, b, sum);
  }
}
