/** Two claims for the same purchase cannot both look clean. */
module Duplicates {
  import opened Common
  import opened Rules
  import opened Ledger
  import opened Workflow
  import opened QueueInvariants
  import opened QueueProgress
  import opened Locks
  import opened Handover
  import opened Effects
  import LostExpenses
  import opened Validation
  import opened CleanRuns

  /** Neither draft nor rejected: its fields are frozen until it is rejected. */
  predicate Standing(e: Expense) {
    !e.deleted && e.status != Draft && e.status != Rejected
  }

  predicate SamePurchase(a: Claim, b: Claim) {
    a.project == b.project && a.bizNo == b.bizNo && a.amount == b.amount && a.spentAt == b.spentAt && Truthy(a.bizNo)
  }

  /** The list of duplicates found for run r: with its worker while the pipeline is on, then in the stored context. */
  ghost function Found(s: State, r: nat): Option<seq<nat>> {
    match Attendant(s.workers, r)
    case Some(DuplicatesRead(_, ds)) => Some(ds)
    case Some(BudgetRead(_, ds, _, _)) => Some(ds)
    case _ => if r in s.contexts then Some(s.contexts[r].duplicates) else None
  }

  predicate Names(found: Option<seq<nat>>, e: nat) {
    found.Some? && e in found.value
  }

  /** Once both have looked, one has seen the other. */
  ghost predicate PairFits(s: State, e: nat, r: nat, d: nat, q: nat)
    requires e < |s.expenses| && d < |s.expenses|
  {
    Standing(s.expenses[e]) && Standing(s.expenses[d]) && SamePurchase(s.expenses[e].claim, s.expenses[d].claim) ==>
      (Found(s, r).Some? && Found(s, q).Some? ==> Names(Found(s, r), d) || Names(Found(s, q), e))
  }

  ghost predicate PairsSound(s: State) {
    forall e: nat, r: nat, d: nat, q: nat ::
        e < |s.expenses| && d < |s.expenses| && e != d && IsLatest(s.runs, e, r) && IsLatest(s.runs, d, q) ==>
      PairFits(s, e, r, d, q)
  }

  /** The expense stood before with the same claim, and what was found for its run is as before, or nothing. */
  ghost predicate Settled(s: State, u: State, e: nat, r: nat)
    requires e < |u.expenses|
  {
    Standing(u.expenses[e]) && Found(u, r).Some? ==>
      e < |s.expenses| && Standing(s.expenses[e]) && s.expenses[e].claim == u.expenses[e].claim
          && IsLatest(s.runs, e, r) && Found(s, r) == Found(u, r)
  }

  lemma SettledPair(s: State, u: State, e: nat, r: nat, d: nat, q: nat)
    requires PairsSound(s) && e != d && e < |u.expenses| && d < |u.expenses| && Settled(s, u, e, r)
    requires Settled(s, u, d, q)
    ensures PairFits(u, e, r, d, q)
  {
  }

  // ---------------------------------------------------------------- requests

  lemma StandingBefore(s: State, a: UserAction, e: nat)
    requires LocksSound(s) && UserEnabled(s, a) && e < |UserNext(s, a).expenses| && Standing(UserNext(s, a).expenses[e])
    requires a != Submit(e)
    ensures e < |s.expenses| && Standing(s.expenses[e]) && s.expenses[e].claim == UserNext(s, a).expenses[e].claim
  {
    UserRowsStep(s, a);
    if e < |s.expenses| && s.expenses[e].status == Draft {
      DraftStays(s, a, e);
    }
  }

  lemma DraftStays(s: State, a: UserAction, e: nat)
    requires LocksSound(s) && UserEnabled(s, a) && a != Submit(e) && e < |s.expenses| && s.expenses[e].status == Draft
    ensures e < |UserNext(s, a).expenses| && UserNext(s, a).expenses[e].status == Draft
  {
    UserCalmsRow(s, a, e);
  }

  lemma NothingFoundForNewRun(s: State)
    requires QueueSound(s) && HistorySound(s)
    ensures Found(s, |s.runs|).None?
  {
  }

  lemma UserSettles(s: State, a: UserAction, e: nat, r: nat)
    requires QueueSound(s) && LocksSound(s) && HistorySound(s) && UserEnabled(s, a)
    requires e < |UserNext(s, a).expenses| && IsLatest(UserNext(s, a).runs, e, r)
    ensures Settled(s, UserNext(s, a), e, r)
  {
    var u := UserNext(s, a);
    UserLeavesWork(s, a);
    assert Found(u, r) == Found(s, r);
    UserLatest(s, a, e, r);
    if a == Submit(e) {
      NothingFoundForNewRun(s);
    } else if Standing(u.expenses[e]) {
      StandingBefore(s, a, e);
    }
  }

  lemma UserKeepsPairs(s: State, a: UserAction)
    requires QueueSound(s) && LocksSound(s) && HistorySound(s) && PairsSound(s) && UserEnabled(s, a)
    ensures PairsSound(UserNext(s, a))
  {
    var u := UserNext(s, a);
    forall e: nat, r: nat, d: nat, q: nat | e < |u.expenses| && d < |u.expenses| && e != d && IsLatest(u.runs, e, r)
        && IsLatest(u.runs, d, q)
      ensures PairFits(u, e, r, d, q)
    {
      UserSettles(s, a, e, r);
      UserSettles(s, a, d, q);
      SettledPair(s, u, e, r, d, q);
    }
  }

  // ---------------------------------------------------------------- the workers

  lemma WorkerStanding(s: State, a: WorkerAction, e: nat)
    requires WorkerEnabled(s, a) && e < |s.expenses|
    ensures e < |WorkerNext(s, a).expenses|
    ensures Standing(WorkerNext(s, a).expenses[e]) <==> Standing(s.expenses[e])
    ensures WorkerNext(s, a).expenses[e].claim == s.expenses[e].claim
    ensures WorkerNext(s, a).expenses[e].deleted == s.expenses[e].deleted
  {
    WorkerRow(s, a);
  }

  lemma FoundOfOthers(s: State, a: WorkerAction, r: nat)
    requires QueueSound(s) && WorkerEnabled(s, a) && r < |s.runs| && r != Subject(s, a)
    ensures Found(WorkerNext(s, a), r) == Found(s, r)
  {
    OtherContextsStay(s, a, r);
    OthersAttended(s, a, r);
  }

  lemma OthersAttended(s: State, a: WorkerAction, r: nat)
    requires QueueSound(s) && WorkerEnabled(s, a) && r < |s.runs| && r != Subject(s, a)
    ensures Attendant(WorkerNext(s, a).workers, r) == Attendant(s.workers, r)
  {
    WorkerStepIsLocal(s, a);
    WorkerKeepsQueue(s, a);
    AttendantOfOthers(s, WorkerNext(s, a), Subject(s, a), r);
  }

  lemma AttendantOfOthers(s: State, u: State, r: nat, q: nat)
    requires WorkersFit(s) && WorkersFit(u) && OnlyRun(s, u, r) && q < |s.runs| && q != r
    ensures Attendant(u.workers, q) == Attendant(s.workers, q)
  {
  }

  /** Apart from the read itself, what was found for the run of the step stays or is dropped. */
  lemma FoundOfOwn(s: State, a: WorkerAction)
    requires QueueSound(s) && WorkerEnabled(s, a) && !a.ReadDuplicates?
    requires a.Gate? || a.ReadBudget? || a.StoreResults?
    requires Subject(s, a) in s.contexts ==>
            !PastGate(s.workers[a.w].step) && !PastGate(WorkerNext(s, a).workers[a.w].step)
    ensures Found(WorkerNext(s, a), Subject(s, a)).Some? ==>
            Found(WorkerNext(s, a), Subject(s, a)) == Found(s, Subject(s, a))
  {
    MoveAttendants(s, a);
  }

  lemma MoveAttendants(s: State, a: WorkerAction)
    requires QueueSound(s) && WorkerEnabled(s, a) && IsMove(a)
    ensures Attendant(s.workers, Subject(s, a)) == Some(s.workers[a.w].step)
    ensures a.w in WorkerNext(s, a).workers
    ensures Attendant(WorkerNext(s, a).workers, Subject(s, a)) == Some(WorkerNext(s, a).workers[a.w].step)
  {
    AttendantIs(s, a.w);
    PipelineKeepsQueue(s, a);
    MoveShape(s, a);
    AttendantIs(WorkerNext(s, a), a.w);
  }

  lemma NoAttendant(s: State, r: nat)
    requires Unattended(s, r)
    ensures Attendant(s.workers, r).None?
  {
  }

  lemma FoundAfterPass(s: State, a: WorkerAction)
    requires QueueSound(s) && WorkerEnabled(s, a) && !IsMove(a)
    requires !a.ClaimRun? && !a.Requeue? && Subject(s, a) in s.contexts ==> !PastGate(s.workers[a.w].step)
    ensures Found(WorkerNext(s, a), Subject(s, a)).Some? ==>
            Found(WorkerNext(s, a), Subject(s, a)) == Found(s, Subject(s, a))
  {
    var u := WorkerNext(s, a);
    var r := Subject(s, a);
    WorkerHistory(s, a);
    WorkerKeepsQueue(s, a);
    PassAttendants(s, a);
  }

  lemma PassAttendants(s: State, a: WorkerAction)
    requires QueueSound(s) && WorkerEnabled(s, a) && !IsMove(a) && QueueSound(WorkerNext(s, a))
    ensures match Attendant(WorkerNext(s, a).workers, Subject(s, a))
            case None => true
            case Some(x) => x.Claimed? || x.Handling?
    ensures a.ClaimRun? || a.Requeue? ==>
            match Attendant(s.workers, Subject(s, a)) case None => true case Some(x) => x.Handling?
    ensures !a.ClaimRun? && !a.Requeue? ==> Attendant(s.workers, Subject(s, a)) == Some(s.workers[a.w].step)
  {
    var u := WorkerNext(s, a);
    var r := Subject(s, a);
    if a.ClaimRun? {
      AttendantIs(u, a.w);
    } else if a.Requeue? {
      NoAttendant(s, r);
      NoAttendant(u, r);
    } else if a.FailRun? {
      AttendantIs(s, a.w);
      FailShape(s, a.w);
      if a.w in u.workers {
        AttendantIs(u, a.w);
      } else {
        NoAttendant(u, r);
      }
    } else {
      AttendantIs(s, a.w);
      EndShape(s, a);
      NoAttendant(u, r);
    }
  }

  lemma NewestWorkerHasNotStored(s: State, e: nat, w: nat)
    requires LatestSound(s) && e < |s.expenses| && w in s.workers && IsLatest(s.runs, e, s.workers[w].run)
    requires PastGate(s.workers[w].step)
    ensures s.workers[w].run !in s.contexts
  {
  }

  lemma NewestGateHasNotStored(s: State, e: nat, w: nat)
    requires QueueSound(s) && LatestSound(s) && WorkerEnabled(s, Gate(w)) && e < |s.expenses|
    requires IsLatest(s.runs, e, s.workers[w].run)
    requires PastGate(DoGate(s, w).workers[w].step)
    ensures s.workers[w].run !in s.contexts
  {
  }

  lemma WorkerSettles(s: State, a: WorkerAction, e: nat, r: nat)
    requires QueueSound(s) && LatestSound(s) && WorkerEnabled(s, a) && e < |s.expenses| == |WorkerNext(s, a).expenses|
    requires IsLatest(s.runs, e, r) && !(a.ReadDuplicates? && r == Subject(s, a))
    ensures Settled(s, WorkerNext(s, a), e, r)
  {
    WorkerStanding(s, a, e);
    if r != Subject(s, a) {
      FoundOfOthers(s, a, r);
    } else if IsMove(a) {
      if PastGate(s.workers[a.w].step) {
        NewestWorkerHasNotStored(s, e, a.w);
      }
      if a.Gate? && PastGate(WorkerNext(s, a).workers[a.w].step) {
        NewestGateHasNotStored(s, e, a.w);
      }
      FoundOfOwn(s, a);
    } else {
      if !a.ClaimRun? && !a.Requeue? && PastGate(s.workers[a.w].step) {
        NewestWorkerHasNotStored(s, e, a.w);
      }
      FoundAfterPass(s, a);
    }
  }

  /** The read itself finds every standing expense for the same purchase. */
  lemma ReadFinds(s: State, w: nat, e: nat, d: nat)
    requires QueueSound(s) && LatestSound(s) && WorkerEnabled(s, ReadDuplicates(w)) && e < |s.expenses|
    requires d < |s.expenses| && d != e
    requires IsLatest(s.runs, e, s.workers[w].run) && Standing(s.expenses[e]) && Standing(s.expenses[d])
    requires SamePurchase(s.expenses[e].claim, s.expenses[d].claim)
    ensures Names(Found(DoReadDuplicates(s, w), s.workers[w].run), d)
  {
    var r := s.workers[w].run;
    var u := DoReadDuplicates(s, w);
    assert LatestFits(s, e, r);
    var c := s.workers[w].step.claim;
    assert c == s.expenses[e].claim;
    assert IsDuplicate(s.expenses, e, c, d);
    WorkerKeepsQueue(s, ReadDuplicates(w));
    AttendantIs(u, w);
    assert u.workers[w].step == DuplicatesRead(c, FindDuplicates(s.expenses, e, c));
  }

  lemma WorkerPair(s: State, a: WorkerAction, e: nat, r: nat, d: nat, q: nat)
    requires QueueSound(s) && LatestSound(s) && PairsSound(s) && WorkerEnabled(s, a)
    requires e < |s.expenses| == |WorkerNext(s, a).expenses| && d < |s.expenses| && e != d && IsLatest(s.runs, e, r)
    requires IsLatest(s.runs, d, q)
    ensures PairFits(WorkerNext(s, a), e, r, d, q)
  {
    WorkerStanding(s, a, e);
    WorkerStanding(s, a, d);
    if !(a.ReadDuplicates? && (r == Subject(s, a) || q == Subject(s, a))) {
      WorkerSettles(s, a, e, r);
      WorkerSettles(s, a, d, q);
      SettledPair(s, WorkerNext(s, a), e, r, d, q);
    } else if Standing(s.expenses[e]) && Standing(s.expenses[d])
        && SamePurchase(s.expenses[e].claim, s.expenses[d].claim) {
      if r == Subject(s, a) {
        ReadFinds(s, a.w, e, d);
      } else {
        ReadFinds(s, a.w, d, e);
      }
    }
  }

  lemma WorkerKeepsPairs(s: State, a: WorkerAction)
    requires QueueSound(s) && LatestSound(s) && PairsSound(s) && WorkerEnabled(s, a)
    ensures PairsSound(WorkerNext(s, a))
  {
    var u := WorkerNext(s, a);
    WorkerRowsStep(s, a);
    forall e: nat, r: nat, d: nat, q: nat | e < |u.expenses| && d < |u.expenses| && e != d && IsLatest(u.runs, e, r)
        && IsLatest(u.runs, d, q)
      ensures PairFits(u, e, r, d, q)
    {
      LostExpenses.WorkerKeepsLatest(s, a, e, r);
      LostExpenses.WorkerKeepsLatest(s, a, d, q);
      WorkerPair(s, a, e, r, d, q);
    }
  }

  lemma PairsStep(s: State, a: Action)
    requires QueueSound(s) && LocksSound(s) && HistorySound(s) && LatestSound(s) && PairsSound(s) && Enabled(s, a)
    ensures PairsSound(Next(s, a))
  {
    match a
    case ByUser(u) => UserKeepsPairs(s, u);
    case ByWorker(v) => WorkerKeepsPairs(s, v);
  }

  // ---------------------------------------------------------------- what the managers see

  /** The results shown of expense e warn of a duplicate and name d. */
  predicate WarnsOf(rs: seq<Result>, d: nat) {
    exists i :: 0 <= i < |rs| && rs[i].code == DUP001 && rs[i].severity == Warn && rs[i].detail.Others?
        && d in rs[i].detail.ids
  }

  lemma NamedIsWarned(s: State, e: nat, r: nat, d: nat)
    requires LatestSound(s) && e < |s.expenses| && IsLatest(s.runs, e, r) && r in s.contexts
    requires d in s.contexts[r].duplicates
    ensures WarnsOf(LatestResults(s, e), d)
  {
    assert LatestFits(s, e, r);
    LatestRunIsLatest(s.runs, e, r);
    var c := s.contexts[r];
    DuplicateVerdict(c, c.duplicates);
    var rs := LatestResults(s, e);
    assert Result(DUP001, Warn, Others(c.duplicates)) in rs;
    var i :| 0 <= i < |rs| && rs[i] == Result(DUP001, Warn, Others(c.duplicates));
    assert d in rs[i].detail.ids;
  }

  lemma FoundInContext(s: State, e: nat, r: nat)
    requires LatestSound(s) && e < |s.expenses| && IsLatest(s.runs, e, r) && r in s.contexts
    ensures Found(s, r) == Some(s.contexts[r].duplicates)
  {
  }

  /**
   Of any two expenses under review or approved that claim the same purchase, each judged by its
   own newest run, at least one carries the duplicate warning naming the other.
   */
  lemma NotBothLookClean(s: State, e: nat, r: nat, d: nat, q: nat)
    requires LatestSound(s) && PairsSound(s) && e < |s.expenses| && d < |s.expenses| && e != d
    requires Standing(s.expenses[e]) && Standing(s.expenses[d])
    requires SamePurchase(s.expenses[e].claim, s.expenses[d].claim)
    requires LatestRun(s.runs, e) == Some(r) && LatestRun(s.runs, d) == Some(q) && r in s.contexts && q in s.contexts
    ensures WarnsOf(LatestResults(s, e), d) || WarnsOf(LatestResults(s, d), e)
  {
    LatestRunIsLatest(s.runs, e, r);
    LatestRunIsLatest(s.runs, d, q);
    assert PairFits(s, e, r, d, q);
    FoundInContext(s, e, r);
    FoundInContext(s, d, q);
    if Names(Found(s, r), d) {
      NamedIsWarned(s, e, r, d);
    } else {
      NamedIsWarned(s, d, q, e);
    }
  }

  // ---------------------------------------------------------------- what the list holds

  /**
   The list a worker takes at its read step, in the fields of the rows: it holds d if and only if d
   is another expense, neither deleted nor rejected, with the same project, the same non-empty
   number, the same amount and the same day as the worker's snapshot.
   */
  lemma ListInFields(s: State, w: nat, d: nat)
    requires WorkerEnabled(s, ReadDuplicates(w))
    ensures var e, c := ExpenseOf(s, w), s.workers[w].step.claim;
            var u := DoReadDuplicates(s, w);
            && w in u.workers && u.workers[w].step.DuplicatesRead? && u.workers[w].step.claim == c
            && (d in u.workers[w].step.duplicates <==>
                  && d < |s.expenses| && d != e && !s.expenses[d].deleted && s.expenses[d].status != Rejected
                  && s.expenses[d].claim.project == c.project
                  && c.bizNo.Some? && c.bizNo.value != "" && s.expenses[d].claim.bizNo == c.bizNo
                  && s.expenses[d].claim.amount == c.amount && s.expenses[d].claim.spentAt == c.spentAt)
  {
  }

  /** The read step leaves the tables alone and no worker's list ever holds its own expense. */
  ghost predicate OthersOnly(s: State) {
    && (forall w :: w in s.workers ==> ListFits(s, w))
    && (forall r :: r in s.contexts ==> s.contexts[r].expense !in s.contexts[r].duplicates)
  }

  ghost predicate ListFits(s: State, w: nat)
    requires w in s.workers
  {
    var x := s.workers[w].step;
    x.DuplicatesRead? || x.BudgetRead? ==>
      s.workers[w].run < |s.runs| && forall e :: s.runs[s.workers[w].run].target == ForExpense(e) ==> e !in x.duplicates
  }

  lemma UserKeepsLists(s: State, a: UserAction)
    requires OthersOnly(s) && UserEnabled(s, a)
    ensures OthersOnly(UserNext(s, a))
  {
    UserLeavesWork(s, a);
    RunsExtend(s, a);
    forall w | w in s.workers ensures ListFits(UserNext(s, a), w) {
      assert ListFits(s, w);
      if s.workers[w].run < |s.runs| {
        assert UserNext(s, a).runs[s.workers[w].run] == UserNext(s, a).runs[..|s.runs|][s.workers[w].run];
      }
    }
  }

  lemma MovedListFits(s: State, a: WorkerAction)
    requires QueueSound(s) && OthersOnly(s) && WorkerEnabled(s, a) && IsMove(a)
    ensures a.w in WorkerNext(s, a).workers && ListFits(WorkerNext(s, a), a.w)
  {
    assert ListFits(s, a.w);
    MoveShape(s, a);
    if a.ReadDuplicates? {
      ListInFields(s, a.w, ExpenseOf(s, a.w));
    }
  }

  lemma OtherListFits(s: State, a: WorkerAction, w: nat)
    requires QueueSound(s) && OthersOnly(s) && WorkerEnabled(s, a) && w in WorkerNext(s, a).workers
    requires w in s.workers && WorkerNext(s, a).workers[w] == s.workers[w]
    ensures ListFits(WorkerNext(s, a), w)
  {
    assert ListFits(s, w);
    LostExpenses.QueueTargets(s, a);
  }

  lemma WorkerListFits(s: State, a: WorkerAction, w: nat)
    requires QueueSound(s) && OthersOnly(s) && WorkerEnabled(s, a) && w in WorkerNext(s, a).workers
    ensures ListFits(WorkerNext(s, a), w)
  {
    if IsMove(a) {
      MoveShape(s, a);
      if w == a.w {
        MovedListFits(s, a);
      } else {
        OtherListFits(s, a, w);
      }
    } else if w in s.workers && WorkerNext(s, a).workers[w] == s.workers[w] {
      OtherListFits(s, a, w);
    } else {
      PassedStep(s, a, w);
    }
  }

  /** Outside the pipeline a worker's step changes only to a claim or to the handover. */
  lemma PassedStep(s: State, a: WorkerAction, w: nat)
    requires WorkerEnabled(s, a) && !IsMove(a) && w in WorkerNext(s, a).workers
    ensures (w in s.workers && WorkerNext(s, a).workers[w] == s.workers[w])
         || WorkerNext(s, a).workers[w].step.Claimed? || WorkerNext(s, a).workers[w].step.Handling?
  {
    if a.FailRun? {
      FailShape(s, a.w);
    } else {
    }
  }

  lemma WorkerKeepsLists(s: State, a: WorkerAction)
    requires QueueSound(s) && OthersOnly(s) && WorkerEnabled(s, a)
    ensures OthersOnly(WorkerNext(s, a))
  {
    WorkerHistory(s, a);
    if a.StoreResults? {
      assert ListFits(s, a.w);
    }
    forall w | w in WorkerNext(s, a).workers ensures ListFits(WorkerNext(s, a), w) {
      WorkerListFits(s, a, w);
    }
  }

  lemma OthersOnlyStep(s: State, a: Action)
    requires QueueSound(s) && OthersOnly(s) && Enabled(s, a)
    ensures OthersOnly(Next(s, a))
  {
    match a
    case ByUser(u) => UserKeepsLists(s, u);
    case ByWorker(v) => WorkerKeepsLists(s, v);
  }

  /** No expense is ever shown as a duplicate of itself. */
  lemma NoSelfWarning(s: State, e: nat)
    requires LatestSound(s) && OthersOnly(s) && e < |s.expenses|
    ensures !WarnsOf(LatestResults(s, e), e)
  {
    if LatestRun(s.runs, e).Some? {
      var r := LatestRun(s.runs, e).value;
      LatestRunIsLatest(s.runs, e, r);
      assert LatestFits(s, e, r);
      if Judged(s, e, r) {
        WarnsOnlyOfListed(s.contexts[r], e);
      }
    }
  }

  lemma WarnsOnlyOfListed(c: Context, d: nat)
    ensures WarnsOf(RunAll(c), d) ==> d in c.duplicates
  {
    var rs := RunAll(c);
    if WarnsOf(rs, d) {
      var i :| 0 <= i < |rs| && rs[i].code == DUP001 && rs[i].severity == Warn && rs[i].detail.Others?
               && d in rs[i].detail.ids;
      assert rs[i] in rs;
      DuplicateVerdict(c, rs[i].detail.ids);
    }
  }
}
