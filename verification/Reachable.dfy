/** The invariants put together, and what they say of every run that starts from the empty database. */
module Reachable {
  import opened Common
  import opened Rules
  import opened Ledger
  import opened Calendar
  import opened Workflow
  import opened QueueInvariants
  import opened QueueKeys
  import opened Locks
  import opened Handover
  import opened Effects
  import opened LostExpenses
  import opened Validation
  import opened CleanRuns
  import opened Approvals
  import opened BudgetSafety
  import opened Duplicates
  import opened Reports
  import QueueProgress
  import Keys

  /** The queue, the locks and the cycle of an expense. */
  ghost predicate CoreSound(s: State) {
    QueueSound(s) && LocksSound(s) && CycleSound(s) && KeysSound(s.runs)
  }

  /** What results and approvals rest on. */
  ghost predicate ReviewSound(s: State) {
    HistorySound(s) && LatestSound(s) && CleanSound(s) && ChecksSound(s) && ShownSound(s) && LogSound(s)
        && PairsSound(s) && OthersOnly(s)
  }

  /** The figures. */
  ghost predicate MoneySound(s: State) {
    BooksSound(s) && FiguresSound(s) && ReportsSound(s)
  }

  ghost predicate Sound(s: State) {
    CoreSound(s) && ReviewSound(s) && MoneySound(s)
  }

  lemma InitIsSound()
    ensures Sound(INIT)
  {
  }

  lemma CoreStep(s: State, a: Action)
    requires CoreSound(s) && Enabled(s, a)
    ensures CoreSound(Next(s, a))
  {
    QueueStep(s, a);
    LocksStep(s, a);
    CycleStep(s, a);
    KeysStep(s, a);
  }

  lemma ReviewStep(s: State, a: Action)
    requires CoreSound(s) && ReviewSound(s) && Enabled(s, a)
    ensures ReviewSound(Next(s, a))
  {
    HistoryStep(s, a);
    LatestStep(s, a);
    CleanStep(s, a);
    ChecksStep(s, a);
    ShownStep(s, a);
    LogStep(s, a);
    PairsStep(s, a);
    OthersOnlyStep(s, a);
  }

  lemma MoneyStep(s: State, a: Action)
    requires CoreSound(s) && MoneySound(s) && Enabled(s, a)
    ensures MoneySound(Next(s, a))
  {
    BooksStep(s, a);
    FiguresStep(s, a);
    ReportsStep(s, a);
  }

  lemma SoundStep(s: State, a: Action)
    requires Sound(s) && Enabled(s, a)
    ensures Sound(Next(s, a))
  {
    CoreStep(s, a);
    ReviewStep(s, a);
    MoneyStep(s, a);
  }

  lemma {:induction false} SoundAfter(s: State, acts: seq<Action>)
    requires Sound(s) && Path(s, acts)
    ensures Sound(After(s, acts))
    decreases |acts|
  {
    if acts != [] {
      SoundStep(s, acts[0]);
      SoundAfter(Next(s, acts[0]), acts[1..]);
    }
  }

  /** The invariants hold in every state the system can reach. */
  lemma EveryRunIsSound(acts: seq<Action>)
    requires Path(INIT, acts)
    ensures Sound(After(INIT, acts))
  {
    InitIsSound();
    SoundAfter(INIT, acts);
  }

  // ---------------------------------------------------------------- money

  /** No interleaving of approvals and anything else overspends a budget, or spends where none is registered. */
  lemma NoBudgetIsOverspent(acts: seq<Action>, project: nat, category: Category)
    requires Path(INIT, acts) && project < |After(INIT, acts).projects|
    ensures var s := After(INIT, acts);
            match BudgetOf(s.projects[project], category)
            case None => ApprovedSum(s.expenses, project, category) == 0
            case Some(b) => ApprovedSum(s.expenses, project, category) <= b
  {
    EveryRunIsSound(acts);
    var s := After(INIT, acts);
    assert ApprovedSum(s.expenses, project, category) <= Ceiling(s, project, category);
  }

  lemma {:induction false} FinalStays(s: State, acts: seq<Action>, r: nat)
    requires Path(s, acts) && r < |s.reports| && s.reports[r].final
    ensures r < |After(s, acts).reports| && After(s, acts).reports[r] == s.reports[r]
    decreases |acts|
  {
    if acts != [] {
      FinalReportStays(s, acts[0], r);
      FinalStays(Next(s, acts[0]), acts[1..], r);
    }
  }

  /**
   A report once final never changes, and for ever its total and count are those of exactly the
   expenses locked by it.
   */
  lemma FinalReportsStayTrue(before: seq<Action>, later: seq<Action>, r: nat)
    requires Path(INIT, before) && Path(After(INIT, before), later)
    requires r < |After(INIT, before).reports| && After(INIT, before).reports[r].final
    ensures var u := After(After(INIT, before), later);
            && r < |u.reports| && u.reports[r] == After(INIT, before).reports[r]
            && u.reports[r].summary.monthApproved == Total(u.expenses, LockedBy(r))
            && u.reports[r].summary.approvedCount == Count(u.expenses, LockedBy(r))
            && forall e :: 0 <= e < |u.expenses| && u.expenses[e].reportId == Some(r) ==>
                 && u.expenses[e].status == Approved && u.expenses[e].claim.project == u.reports[r].project
                 && IsMonth(u.reports[r].year, u.reports[r].month)
                 && InMonth(u.expenses[e].claim.spentAt, u.reports[r].year, u.reports[r].month)
  {
    var s := After(INIT, before);
    EveryRunIsSound(before);
    SoundAfter(s, later);
    FinalStays(s, later, r);
    var u := After(s, later);
    assert FiguresTrue(u.expenses, u.reports, r);
    forall e: nat | e < |u.expenses| ensures LockFits(u.reports, u.expenses[e]) {
    }
  }

  /** An expense approved after its month became final is in no report, for ever. */
  lemma {:induction false} LateApprovalsStayOut(s: State, acts: seq<Action>, e: nat, r: nat)
    requires Sound(s) && Path(s, acts) && MissedBy(s, e, r)
    ensures MissedBy(After(s, acts), e, r)
    decreases |acts|
  {
    if acts != [] {
      MissedStaysMissed(s, acts[0], e, r);
      SoundStep(s, acts[0]);
      LateApprovalsStayOut(Next(s, acts[0]), acts[1..], e, r);
    }
  }

  lemma {:induction false} KeepsExpenses(s: State, acts: seq<Action>, r: nat, e: nat)
    requires LocksSound(s) && Path(s, acts) && r < |s.reports| && s.reports[r].final
    ensures InReport(After(s, acts), e, r) <==> InReport(s, e, r)
    decreases |acts|
  {
    if acts != [] {
      LocksStep(s, acts[0]);
      FinalReportStays(s, acts[0], r);
      FinalReportKeepsExpenses(s, acts[0], r, e);
      KeepsExpenses(Next(s, acts[0]), acts[1..], r, e);
    }
  }

  /**
   What a final report contains, for ever: exactly the expenses that were approved, of its project
   and month, when it was finalised. An approved expense of the month is missed if and only if it
   was not approved by then.
   */
  lemma ReportContainsExactly(before: seq<Action>, r: nat, later: seq<Action>, e: nat)
    requires Path(INIT, before) && UserEnabled(After(INIT, before), Finalize(r))
    requires Path(DoFinalize(After(INIT, before), r), later)
    ensures var s, u := After(INIT, before), After(DoFinalize(After(INIT, before), r), later);
            && (InReport(u, e, r) <==> OfReport(s, e, r))
            && (OfReport(u, e, r) ==> (MissedBy(u, e, r) <==> !OfReport(s, e, r)))
  {
    var s := After(INIT, before);
    var v := DoFinalize(s, r);
    EveryRunIsSound(before);
    SoundStep(s, ByUser(Finalize(r)));
    SoundAfter(v, later);
    FinalizeTakesExactly(s, r, e);
    KeepsExpenses(v, later, r, e);
    FinalStays(v, later, r);
    if OfReport(After(v, later), e, r) {
      InOrMissed(After(v, later), e, r);
    }
  }

  // ---------------------------------------------------------------- reviews

  /**
   In every reachable state: if no run of an approved expense failed after its pipeline had
   returned, its manager was shown the whole rule set computed from exactly the fields that stand
   approved, or the flag of a failed run; there is one approval of it in the log; and that
   approval carries the override mark, and with it a reason, exactly if a FAIL was shown.
   */
  lemma ApprovedAsValidated(acts: seq<Action>, e: nat) returns (r: nat, k: nat)
    requires Path(INIT, acts) && e < |After(INIT, acts).expenses| && After(INIT, acts).expenses[e].status == Approved
    requires Clean(After(INIT, acts), e)
    ensures var s := After(INIT, acts);
            && IsLatest(s.runs, e, r)
            && (|| (r in s.contexts && s.contexts[r].expense == e && s.contexts[r].claim == s.expenses[e].claim
                && LatestResults(s, e) == RunAll(s.contexts[r]))
                || (s.runs[r].status == Failed && LatestResults(s, e) == [HANDOVER]))
            && k < |s.approvals| && Approves(s.approvals[k], e)
            && (forall j :: 0 <= j < |s.approvals| && Approves(s.approvals[j], e) ==> j == k)
            && (s.approvals[k].override <==> HasFail(LatestResults(s, e)))
            && (s.approvals[k].override ==> !Blank(s.approvals[k].comment))
  {
    EveryRunIsSound(acts);
    var s := After(INIT, acts);
    assert LatestResults(s, e) != [];
    r := LatestRun(s.runs, e).value;
    LatestRunIsLatest(s.runs, e, r);
    ShownResultsAreCurrent(s, e, r);
    assert Logged(s.approvals, e);
    var i :| 0 <= i < |s.approvals| && Approves(s.approvals[i], e);
    k := i;
    assert EntryFits(s, s.approvals[k]);
  }

  /** In every reachable state a budget FAIL under review blocks the approval of these fields for good. */
  lemma NoOverrideBeatsTheBudget(before: seq<Action>, later: seq<Action>, e: nat)
    requires Path(INIT, before) && Path(After(INIT, before), later)
    requires var s := After(INIT, before);
             e < |s.expenses| && s.expenses[e].status == NeedsReview && BudgetFailed(LatestResults(s, e))
    ensures var s, u := After(INIT, before), After(After(INIT, before), later);
            e < |u.expenses| && u.expenses[e].status == Approved ==> u.expenses[e].claim != s.expenses[e].claim
  {
    var s := After(INIT, before);
    EveryRunIsSound(before);
    if e < |After(s, later).expenses| && After(s, later).expenses[e].status == Approved {
      BudgetFailIsFinal(s, later, e);
    }
  }

  /**
   In every reachable state: of two approved claims for one purchase, each judged by its newest run,
   one was flagged with the other.
   */
  lemma DuplicatesAreFlagged(acts: seq<Action>, e: nat, r: nat, d: nat, q: nat)
    requires Path(INIT, acts)
    requires var s := After(INIT, acts);
             && e < |s.expenses| && d < |s.expenses| && e != d
             && s.expenses[e].status == Approved && s.expenses[d].status == Approved
                 && SamePurchase(s.expenses[e].claim, s.expenses[d].claim)
             && LatestRun(s.runs, e) == Some(r) && LatestRun(s.runs, d) == Some(q) && r in s.contexts && q in s.contexts
    ensures var s := After(INIT, acts);
            WarnsOf(LatestResults(s, e), d) || WarnsOf(LatestResults(s, d), e)
  {
    EveryRunIsSound(acts);
    NotBothLookClean(After(INIT, acts), e, r, d, q);
  }

  /** In every reachable state no expense is shown as a duplicate of itself. */
  lemma NoneDuplicatesItself(acts: seq<Action>, e: nat)
    requires Path(INIT, acts) && e < |After(INIT, acts).expenses|
    ensures !WarnsOf(LatestResults(After(INIT, acts), e), e)
  {
    EveryRunIsSound(acts);
    NoSelfWarning(After(INIT, acts), e);
  }

  // ---------------------------------------------------------------- the queue

  /** Somewhere along the run a step gave up on the newest run of the expense while it was in flight. */
  ghost predicate GivenUpOn(s: State, acts: seq<Action>, e: nat)
    requires Path(s, acts)
    decreases |acts|
  {
    acts != [] &&
    ((e < |s.expenses| && InFlight(s.expenses[e]) && exists r :: IsLatest(s.runs, e, r) && GivesUp(s, acts[0], r))
     || GivenUpOn(Next(s, acts[0]), acts[1..], e))
  }

  lemma NewExpenseIsNotStranded(s: State, a: Action, e: nat)
    requires LocksSound(s) && Enabled(s, a) && e >= |s.expenses|
    ensures !Stranded(Next(s, a), e)
  {
    StepRows(s, a);
  }

  lemma {:induction false} StrandedWasGivenUp(s: State, acts: seq<Action>, e: nat)
    requires Sound(s) && Path(s, acts) && !Stranded(s, e) && Stranded(After(s, acts), e)
    ensures GivenUpOn(s, acts, e)
    decreases |acts|
  {
    if acts != [] {
      SoundStep(s, acts[0]);
      if e >= |s.expenses| {
        NewExpenseIsNotStranded(s, acts[0], e);
      } else {
        StrandingStep(s, acts[0], e);
      }
      if !Stranded(Next(s, acts[0]), e) {
        StrandedWasGivenUp(Next(s, acts[0]), acts[1..], e);
      }
    }
  }

  /**
   No submitted expense is lost: in every reachable state an expense in flight has a newest run
   that is queued, running or about to be handed over, or some step of the run has given up on it.
   */
  lemma NoneIsLost(acts: seq<Action>, e: nat)
    requires Path(INIT, acts) && e < |After(INIT, acts).expenses| && InFlight(After(INIT, acts).expenses[e])
    ensures LookedAfter(After(INIT, acts), e) || GivenUpOn(INIT, acts, e)
  {
    EveryRunIsSound(acts);
    InitIsSound();
    LostOrLookedAfter(After(INIT, acts), e);
    if Stranded(After(INIT, acts), e) {
      StrandedWasGivenUp(INIT, acts, e);
    }
  }

  /** While a worker is about its death is possible, and while a run is open some worker action is. */
  lemma RestIsQuiet(s: State)
    requires QueueSound(s) && forall a :: !WorkerEnabled(s, a)
    ensures s.workers == map[] && forall r :: 0 <= r < |s.runs| ==>
            s.runs[r].status != Queued && s.runs[r].status != Running
  {
    if w :| w in s.workers {
      assert WorkerEnabled(s, Crash(w));
    }
    forall r: nat | r < |s.runs| ensures s.runs[r].status != Queued && s.runs[r].status != Running {
      if s.runs[r].status == Queued || s.runs[r].status == Running {
        QueueProgress.RestIsDrained(s, r, 0);
      }
    }
  }

  /**
   What is left when the workers have come to rest: in every reachable state in which no worker
   action is possible, an expense is in flight only if it is lost.
   */
  lemma AtRestOnlyTheLost(acts: seq<Action>, e: nat)
    requires Path(INIT, acts) && forall a :: !WorkerEnabled(After(INIT, acts), a)
    ensures var s := After(INIT, acts); e < |s.expenses| && InFlight(s.expenses[e]) ==> Stranded(s, e)
  {
    var s := After(INIT, acts);
    EveryRunIsSound(acts);
    RestIsQuiet(s);
    if e < |s.expenses| && InFlight(s.expenses[e]) {
      LostOrLookedAfter(s, e);
    }
  }

  /** In every reachable state no two runs carry the same key, and every run keeps within its three attempts. */
  lemma QueueStaysInBounds(acts: seq<Action>, r: nat, q: nat)
    requires Path(INIT, acts) && r < q < |After(INIT, acts).runs|
    ensures var runs := After(INIT, acts).runs;
            runs[r].key != runs[q].key && AttemptFits(runs[r]) && AttemptFits(runs[q])
  {
    EveryRunIsSound(acts);
    KeysAreUnique(After(INIT, acts).runs, r, q);
  }

  function Submissions(acts: seq<Action>, e: nat): nat {
    if acts == [] then 0 else (if acts[0] == ByUser(Submit(e)) then 1 else 0) + Submissions(acts[1..], e)
  }

  lemma RunCountStep(s: State, a: Action, e: nat)
    requires QueueSound(s) && Enabled(s, a)
    ensures RunCount(Next(s, a).runs, e) == RunCount(s.runs, e) + if a == ByUser(Submit(e)) then 1 else 0
  {
    match a
    case ByWorker(v) =>
      WorkerKeepsJobs(s, v);
      SameJobsSameCount(s.runs, WorkerNext(s, v).runs, e);
    case ByUser(u) =>
      if u.Submit? || u.CreateReport? {
        assert UserNext(s, u).runs[..|s.runs|] == s.runs;
      } else {
        UserFrame(s, u);
      }
  }

  lemma {:induction false} RunCountAlong(s: State, acts: seq<Action>, e: nat)
    requires QueueSound(s) && Path(s, acts)
    ensures RunCount(After(s, acts).runs, e) == RunCount(s.runs, e) + Submissions(acts, e)
    decreases |acts|
  {
    if acts != [] {
      RunCountStep(s, acts[0], e);
      QueueStep(s, acts[0]);
      RunCountAlong(Next(s, acts[0]), acts[1..], e);
    }
  }

  /** An expense has one run for each time it left DRAFT, numbered 1, 2, 3 without a gap, whatever else went on. */
  lemma OneRunPerSubmission(acts: seq<Action>, e: nat, n: nat) returns (r: nat)
    requires Path(INIT, acts) && 1 <= n <= Submissions(acts, e)
    ensures RunCount(After(INIT, acts).runs, e) == Submissions(acts, e)
    ensures r < |After(INIT, acts).runs| && After(INIT, acts).runs[r].target == ForExpense(e)
    ensures After(INIT, acts).runs[r].key == Keys.PipelineKey(e, n)
  {
    InitIsSound();
    EveryRunIsSound(acts);
    RunCountAlong(INIT, acts, e);
    r := NumbersAreGapless(After(INIT, acts).runs, e, n);
  }
}
