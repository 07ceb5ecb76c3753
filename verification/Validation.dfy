/** What stands behind the results a manager sees: the newest run of an expense and what it stored. */
module Validation {
  import opened Common
  import opened Rules
  import opened Ledger
  import opened Workflow
  import opened QueueInvariants
  import opened QueueProgress
  import opened Locks
  import opened Handover
  import opened Effects
  import LostExpenses

  // ---------------------------------------------------------------- the stored rows

  /** Rows, contexts and noted failures belong to runs of the expense they name. */
  ghost predicate HistorySound(s: State) {
    && (forall i :: 0 <= i < |s.rows| ==>
        s.rows[i].run < |s.runs| && s.runs[s.rows[i].run].target == ForExpense(s.rows[i].expense))
    && (forall r :: r in s.contexts ==> r < |s.runs| && s.runs[r].target == ForExpense(s.contexts[r].expense))
    && (forall r :: r in s.late ==> r < |s.runs|)
  }

  lemma {:induction false} ResultsAfterAppend(rows: seq<Row>, rs: seq<Result>, d: nat, q: nat, e: nat, r: nat)
    ensures ResultsOf(rows + RowsFor(rs, d, q), e, r) == ResultsOf(rows, e, r) + if d == e && q == r then rs else []
    decreases |rs|
  {
    var all := rows + RowsFor(rs, d, q);
    if rs == [] {
      assert all == rows;
    } else {
      var init := rs[..|rs| - 1];
      assert RowsFor(rs, d, q)[..|rs| - 1] == RowsFor(init, d, q);
      assert all[..|all| - 1] == rows + RowsFor(init, d, q);
      ResultsAfterAppend(rows, init, d, q, e, r);
      assert init + [rs[|rs| - 1]] == rs;
      assert ResultsOf(rows, e, r) + init + [rs[|rs| - 1]] == ResultsOf(rows, e, r) + rs;
    }
  }

  lemma {:induction false} NoRowsOfRun(rows: seq<Row>, e: nat, r: nat)
    requires forall i :: 0 <= i < |rows| ==> rows[i].run != r
    ensures ResultsOf(rows, e, r) == []
  {
    if rows != [] {
      NoRowsOfRun(rows[..|rows| - 1], e, r);
    }
  }

  /** The results of an expense under a run are exactly what its stored rows hold. */
  lemma {:induction false} ResultsAreRows(rows: seq<Row>, e: nat, r: nat, x: Result)
    ensures x in ResultsOf(rows, e, r) <==> exists i :: 0 <= i < |rows| && rows[i] == Row(e, r, x)
  {
    if rows != [] {
      var init, last := rows[..|rows| - 1], rows[|rows| - 1];
      ResultsAreRows(init, e, r, x);
      if last == Row(e, r, x) {
        assert rows[|rows| - 1] == Row(e, r, x);
      } else if i :| 0 <= i < |rows| && rows[i] == Row(e, r, x) {
        assert init[i] == Row(e, r, x);
      }
    }
  }

  /** What is shown of an expense is exactly what its rows hold under the largest run number that is its own. */
  lemma ShownOnRecord(s: State, e: nat, x: Result)
    ensures x in LatestResults(s, e) <==>
            exists i :: 0 <= i < |s.rows| && s.rows[i].expense == e && s.rows[i].result == x
                        && IsLatest(s.runs, e, s.rows[i].run)
  {
    if i :| 0 <= i < |s.rows| && s.rows[i].expense == e && s.rows[i].result == x && IsLatest(s.runs, e, s.rows[i].run) {
      LatestRunIsLatest(s.runs, e, s.rows[i].run);
      ResultsAreRows(s.rows, e, s.rows[i].run, x);
    }
    if LatestRun(s.runs, e).Some? {
      var r := LatestRun(s.runs, e).value;
      LatestRunIsLatest(s.runs, e, r);
      ResultsAreRows(s.rows, e, r, x);
    }
  }

  /** A FAIL is shown if and only if some row of the expense under its newest run has the severity FAIL. */
  lemma FailOnRecord(s: State, e: nat)
    ensures HasFail(LatestResults(s, e)) <==>
            exists i :: 0 <= i < |s.rows| && s.rows[i].expense == e && s.rows[i].result.severity == Fail
                        && IsLatest(s.runs, e, s.rows[i].run)
  {
    var rs := LatestResults(s, e);
    if HasFail(rs) {
      var k :| 0 <= k < |rs| && rs[k].severity == Fail;
      ShownOnRecord(s, e, rs[k]);
    }
    if i :| 0 <= i < |s.rows| && s.rows[i].expense == e && s.rows[i].result.severity == Fail
            && IsLatest(s.runs, e, s.rows[i].run) {
      ShownOnRecord(s, e, s.rows[i].result);
      var k :| 0 <= k < |rs| && rs[k] == s.rows[i].result;
    }
  }

  lemma UserKeepsHistory(s: State, a: UserAction)
    requires HistorySound(s) && UserEnabled(s, a)
    ensures HistorySound(UserNext(s, a))
  {
    UserLeavesWork(s, a);
    if a.Submit? || a.CreateReport? {
      RunsExtend(s, a);
    }
  }

  lemma RunsExtend(s: State, a: UserAction)
    requires UserEnabled(s, a)
    ensures |s.runs| <= |UserNext(s, a).runs| && UserNext(s, a).runs[..|s.runs|] == s.runs
  {
  }

  lemma WorkerKeepsHistory(s: State, a: WorkerAction)
    requires QueueSound(s) && HistorySound(s) && WorkerEnabled(s, a)
    ensures HistorySound(WorkerNext(s, a))
  {
    LostExpenses.QueueTargets(s, a);
    WorkerLeavesRequests(s, a);
    WorkerHistory(s, a);
    StoredForExpense(s, a);
    HistoryFrame(s, WorkerNext(s, a), Stored(s, a), Patient(s, a), Subject(s, a));
  }

  /** Only a pipeline of an existing expense stores results. */
  lemma StoredForExpense(s: State, a: WorkerAction)
    requires QueueSound(s) && WorkerEnabled(s, a)
    ensures Subject(s, a) < |s.runs|
    ensures Stored(s, a) != [] || a.StoreResults? ==> s.runs[Subject(s, a)].target == ForExpense(Patient(s, a))
    ensures a.StoreResults? ==> ContextOf(s, a.w, a.around).expense == Patient(s, a)
  {
  }

  lemma HistoryFrame(s: State, u: State, rs: seq<Result>, e: nat, r: nat)
    requires HistorySound(s) && SameTargets(s.runs, u.runs) && u.rows == s.rows + RowsFor(rs, e, r)
    requires r < |s.runs| && (rs != [] ==> s.runs[r].target == ForExpense(e))
    requires u.late <= s.late + {r}
    requires forall q :: q in u.contexts ==>
            (q in s.contexts && u.contexts[q] == s.contexts[q])
                || (q == r && s.runs[r].target == ForExpense(u.contexts[q].expense))
    ensures HistorySound(u)
  {
  }

  lemma HistoryStep(s: State, a: Action)
    requires QueueSound(s) && HistorySound(s) && Enabled(s, a)
    ensures HistorySound(Next(s, a))
  {
    match a
    case ByUser(u) => UserKeepsHistory(s, u);
    case ByWorker(v) => WorkerKeepsHistory(s, v);
  }

  // ---------------------------------------------------------------- the newest run

  /** The results filed under run r are a complete verdict on the context recorded for it. */
  predicate Judged(s: State, e: nat, r: nat) {
    r in s.contexts && s.contexts[r].expense == e && ResultsOf(s.rows, e, r) == RunAll(s.contexts[r])
  }

  /** The results filed under run r are the flag of the handover and nothing else. */
  predicate HandedOver(s: State, e: nat, r: nat)
    requires r < |s.runs|
  {
    r !in s.contexts && s.runs[r].status == Failed && ResultsOf(s.rows, e, r) == [HANDOVER]
  }

  predicate Silent(s: State, e: nat, r: nat) {
    r !in s.contexts && ResultsOf(s.rows, e, r) == []
  }

  /** What the newest run r of expense e has stored, and what a worker on it carries. */
  ghost predicate LatestFits(s: State, e: nat, r: nat)
    requires e < |s.expenses| && r < |s.runs|
  {
    var x := s.expenses[e];
    && (Judged(s, e, r) || HandedOver(s, e, r) || Silent(s, e, r))
    && (InFlight(x) ==> Silent(s, e, r))
    && (r in s.contexts && Reviewed(x) ==> s.contexts[r].claim == x.claim)
    && (forall w :: w in s.workers && s.workers[w].run == r && PastGate(s.workers[w].step) ==>
          Silent(s, e, r) && (x.status != Draft ==> s.workers[w].step.claim == x.claim))
  }

  ghost predicate LatestSound(s: State) {
    forall e: nat, r: nat :: e < |s.expenses| && IsLatest(s.runs, e, r) ==> LatestFits(s, e, r)
  }

  /** Nothing about run r changed, and its expense did not come newly into flight. */
  lemma FitsFrame(s: State, u: State, e: nat, r: nat)
    requires e < |s.expenses| <= |u.expenses| && r < |s.runs| && r < |u.runs| && LatestFits(s, e, r)
    requires u.runs[r] == s.runs[r] && ResultsOf(u.rows, e, r) == ResultsOf(s.rows, e, r)
    requires (r in u.contexts <==> r in s.contexts) && (r in s.contexts ==> u.contexts[r] == s.contexts[r])
    requires forall w :: w in u.workers && u.workers[w].run == r ==> w in s.workers && u.workers[w] == s.workers[w]
    requires InFlight(u.expenses[e]) ==> InFlight(s.expenses[e])
    requires u.expenses[e].status != Draft ==>
            s.expenses[e].status != Draft && u.expenses[e].claim == s.expenses[e].claim
    ensures LatestFits(u, e, r)
  {
  }

  // ---------------------------------------------------------------- requests

  /** Outside a submission a request brings no expense into flight, and leaves the claim of one that is not a draft. */
  lemma UserCalmsRow(s: State, a: UserAction, e: nat)
    requires LocksSound(s) && UserEnabled(s, a) && e < |s.expenses| && !(a.Submit? && a.e == e)
    ensures e < |UserNext(s, a).expenses|
    ensures var x, y := s.expenses[e], UserNext(s, a).expenses[e];
            (InFlight(y) ==> InFlight(x)) && (y.status != Draft ==> x.status != Draft && y.claim == x.claim)
  {
    UserRowsStep(s, a);
    if a.Submit? {
    } else {
      LostExpenses.UserInFlight(s, a, e);
    }
  }

  lemma UserKeepsFit(s: State, a: UserAction, e: nat, r: nat)
    requires QueueSound(s) && LocksSound(s) && UserEnabled(s, a) && e < |s.expenses| && r < |s.runs|
    requires LatestFits(s, e, r) && !(a.Submit? && a.e == e)
    ensures e < |UserNext(s, a).expenses| && r < |UserNext(s, a).runs| && LatestFits(UserNext(s, a), e, r)
  {
    UserLeavesWork(s, a);
    RunsExtend(s, a);
    UserCalmsRow(s, a, e);
    assert UserNext(s, a).runs[r] == UserNext(s, a).runs[..|s.runs|][r];
    FitsFrame(s, UserNext(s, a), e, r);
  }

  lemma NewRunFits(s: State, u: State, e: nat, x: Run)
    requires QueueSound(s) && HistorySound(s) && e < |u.expenses|
    requires u.runs == s.runs + [x] && u.workers == s.workers && u.rows == s.rows && u.contexts == s.contexts
    ensures LatestFits(u, e, |s.runs|)
  {
    NoRowsOfRun(s.rows, e, |s.runs|);
  }

  lemma UserLatest(s: State, a: UserAction, e: nat, r: nat)
    requires UserEnabled(s, a) && IsLatest(UserNext(s, a).runs, e, r)
    ensures (IsLatest(s.runs, e, r) && !(a.Submit? && a.e == e)) || (a.Submit? && a.e == e && r == |s.runs|)
  {
    var u := UserNext(s, a);
    if a.Submit? || a.CreateReport? {
      LatestAfterAppend(s.runs, u.runs[|s.runs|], e, r);
    } else {
      UserLeavesWork(s, a);
    }
  }

  lemma UserKeepsLatestSound(s: State, a: UserAction)
    requires QueueSound(s) && LocksSound(s) && HistorySound(s) && LatestSound(s) && UserEnabled(s, a)
    ensures LatestSound(UserNext(s, a))
  {
    var u := UserNext(s, a);
    forall e: nat, r: nat | e < |u.expenses| && IsLatest(u.runs, e, r) ensures LatestFits(u, e, r) {
      UserLatest(s, a, e, r);
      if a.Submit? && a.e == e {
        NewRunFits(s, u, e, u.runs[|s.runs|]);
      } else {
        assert e < |s.expenses|;
        UserKeepsFit(s, a, e, r);
      }
    }
  }

  // ---------------------------------------------------------------- the workers

  lemma OtherResultsStay(s: State, a: WorkerAction, e: nat, r: nat)
    requires WorkerEnabled(s, a) && r != Subject(s, a)
    ensures ResultsOf(WorkerNext(s, a).rows, e, r) == ResultsOf(s.rows, e, r)
  {
    WorkerLeavesRequests(s, a);
    ResultsAfterAppend(s.rows, Stored(s, a), Patient(s, a), Subject(s, a), e, r);
  }

  lemma OtherContextsStay(s: State, a: WorkerAction, r: nat)
    requires WorkerEnabled(s, a) && r != Subject(s, a)
    ensures r in WorkerNext(s, a).contexts <==> r in s.contexts
    ensures r in s.contexts ==> WorkerNext(s, a).contexts[r] == s.contexts[r]
  {
    ContextsRecorded(s, a);
  }

  lemma WorkerCalmsRow(s: State, a: WorkerAction, e: nat)
    requires WorkerEnabled(s, a) && e < |s.expenses|
    ensures e < |WorkerNext(s, a).expenses|
    ensures var x, y := s.expenses[e], WorkerNext(s, a).expenses[e];
            (InFlight(y) ==> InFlight(x)) && (x.status == Draft <==> y.status == Draft) && y.claim == x.claim
  {
    WorkerRow(s, a);
  }

  lemma OtherRunKeepsFit(s: State, a: WorkerAction, e: nat, r: nat)
    requires QueueSound(s) && WorkerEnabled(s, a) && e < |s.expenses| && r < |s.runs| && LatestFits(s, e, r)
    requires r != Subject(s, a)
    ensures e < |WorkerNext(s, a).expenses| && r < |WorkerNext(s, a).runs| && LatestFits(WorkerNext(s, a), e, r)
  {
    WorkerStepIsLocal(s, a);
    OtherResultsStay(s, a, e, r);
    OtherContextsStay(s, a, r);
    WorkerCalmsRow(s, a, e);
    FitsFrame(s, WorkerNext(s, a), e, r);
  }

  lemma FirstResults(rows: seq<Row>, rs: seq<Result>, e: nat, r: nat)
    requires ResultsOf(rows, e, r) == []
    ensures ResultsOf(rows + RowsFor(rs, e, r), e, r) == rs
  {
    ResultsAfterAppend(rows, rs, e, r, e, r);
    assert [] + rs == rs;
  }

  lemma JudgedFits(u: State, e: nat, r: nat, c: Context)
    requires e < |u.expenses| && r < |u.runs|
    requires r in u.contexts && u.contexts[r] == c && c.expense == e && ResultsOf(u.rows, e, r) == RunAll(c)
    requires !InFlight(u.expenses[e]) && (Reviewed(u.expenses[e]) ==> c.claim == u.expenses[e].claim)
    requires forall w :: w in u.workers && u.workers[w].run == r ==> !PastGate(u.workers[w].step)
    ensures LatestFits(u, e, r)
  {
  }

  lemma StoreShape(s: State, w: nat, around: Surroundings, e: nat)
    requires QueueSound(s) && WorkerEnabled(s, StoreResults(w, around))
    requires s.runs[s.workers[w].run].target == ForExpense(e)
    ensures var u := DoStoreResults(s, w, around);
            && e < |s.expenses| == |u.expenses| && u.expenses[e].claim == s.expenses[e].claim
            && (u.expenses[e].status == s.expenses[e].status || u.expenses[e].status == NeedsReview)
                && u.expenses[e].status != Validating
            && forall v :: v in u.workers && u.workers[v].run == s.workers[w].run ==> !PastGate(u.workers[v].step)
  {
  }

  lemma StoreFits(s: State, w: nat, around: Surroundings, e: nat, r: nat)
    requires QueueSound(s) && WorkerEnabled(s, StoreResults(w, around)) && e < |s.expenses| && r < |s.runs|
    requires LatestFits(s, e, r)
    requires r == s.workers[w].run && s.runs[r].target == ForExpense(e) && s.expenses[e].status != Submitted
    ensures LatestFits(DoStoreResults(s, w, around), e, r)
  {
    StoreShape(s, w, around, e);
    FirstResults(s.rows, RunAll(ContextOf(s, w, around)), e, r);
    JudgedFits(DoStoreResults(s, w, around), e, r, ContextOf(s, w, around));
  }

  lemma HandedOverFits(s: State, u: State, e: nat, r: nat)
    requires Silent(s, e, r) && e < |u.expenses| && r < |u.runs|
    requires u.rows == s.rows + RowsFor([HANDOVER], e, r) && u.contexts == s.contexts && u.runs[r].status == Failed
    requires !InFlight(u.expenses[e]) && forall w :: w in u.workers ==> u.workers[w].run != r
    ensures LatestFits(u, e, r)
  {
  }

  lemma HandleFits(s: State, w: nat, e: nat, r: nat)
    requires QueueSound(s) && WorkerEnabled(s, Handle(w)) && e < |s.expenses| && r < |s.runs| && LatestFits(s, e, r)
    requires r == s.workers[w].run && s.runs[r].target == ForExpense(e)
    ensures LatestFits(DoHandle(s, w), e, r)
  {
    if InFlight(s.expenses[e]) {
      HandedOverFits(s, DoHandle(s, w), e, r);
    } else {
      FitsFrame(s, DoHandle(s, w), e, r);
    }
  }

  lemma GateFits(s: State, w: nat, e: nat, r: nat)
    requires QueueSound(s) && WorkerEnabled(s, Gate(w)) && e < |s.expenses| && r < |s.runs| && LatestFits(s, e, r)
    requires r == s.workers[w].run && s.runs[r].target == ForExpense(e)
    ensures LatestFits(DoGate(s, w), e, r)
  {
    var u := DoGate(s, w);
    assert forall v :: v in u.workers && u.workers[v].run == r ==> v == w;
  }

  lemma ReadFits(s: State, a: WorkerAction, e: nat, r: nat)
    requires QueueSound(s) && WorkerEnabled(s, a) && (a.ReadDuplicates? || a.ReadBudget?)
    requires e < |s.expenses| && r < |s.runs| && LatestFits(s, e, r) && r == s.workers[a.w].run
    ensures LatestFits(WorkerNext(s, a), e, r)
  {
  }

  /** The run changes hands or status; what is stored stays. */
  lemma StatusFits(s: State, u: State, e: nat, r: nat)
    requires e < |s.expenses| && r < |s.runs| && LatestFits(s, e, r) && s.runs[r].status != Failed
    requires u.expenses == s.expenses && u.rows == s.rows && u.contexts == s.contexts && |u.runs| == |s.runs|
    requires forall w :: w in u.workers && u.workers[w].run == r ==> !PastGate(u.workers[w].step)
    ensures LatestFits(u, e, r)
  {
  }

  lemma PassFits(s: State, a: WorkerAction, e: nat, r: nat)
    requires QueueSound(s) && WorkerEnabled(s, a) && (a.ClaimRun? || a.Requeue? || a.Finish? || a.FailRun?)
    requires e < |s.expenses| && r < |s.runs| && LatestFits(s, e, r) && r == Subject(s, a)
    ensures e < |WorkerNext(s, a).expenses| && r < |WorkerNext(s, a).runs| && LatestFits(WorkerNext(s, a), e, r)
  {
    var u := WorkerNext(s, a);
    WorkerLeavesRequests(s, a);
    assert u.rows == s.rows;
    WorkerHistory(s, a);
    OthersLeaveExpenses(s, a);
    WorkerKeepsQueue(s, a);
    LostExpenses.QueueTargets(s, a);
    PassStep(s, a);
    StatusFits(s, u, e, r);
  }

  lemma PassStep(s: State, a: WorkerAction)
    requires QueueSound(s) && WorkerEnabled(s, a) && (a.ClaimRun? || a.Requeue? || a.Finish? || a.FailRun?)
    ensures s.runs[Subject(s, a)].status != Failed
    ensures forall w :: w in WorkerNext(s, a).workers && WorkerNext(s, a).workers[w].run == Subject(s, a) ==>
            !PastGate(WorkerNext(s, a).workers[w].step)
  {
  }

  lemma CrashFits(s: State, w: nat, e: nat, r: nat)
    requires QueueSound(s) && WorkerEnabled(s, Crash(w)) && e < |s.expenses| && r < |s.runs| && LatestFits(s, e, r)
    ensures LatestFits(WorkerNext(s, Crash(w)), e, r)
  {
  }

  lemma OwnRunKeepsFit(s: State, a: WorkerAction, e: nat)
    requires QueueSound(s) && CycleSound(s) && WorkerEnabled(s, a) && e < |s.expenses|
    requires IsLatest(s.runs, e, Subject(s, a)) && LatestFits(s, e, Subject(s, a))
    ensures e < |WorkerNext(s, a).expenses| && Subject(s, a) < |WorkerNext(s, a).runs|
    ensures LatestFits(WorkerNext(s, a), e, Subject(s, a))
  {
    var r := Subject(s, a);
    if a.StoreResults? {
      assert StepFits(s.workers[a.w].step, s.expenses[e]);
      StoreFits(s, a.w, a.around, e, r);
    } else if a.Handle? {
      HandleFits(s, a.w, e, r);
    } else if a.Gate? {
      GateFits(s, a.w, e, r);
    } else if a.Crash? {
      CrashFits(s, a.w, e, r);
    } else if a.ReadDuplicates? || a.ReadBudget? {
      ReadFits(s, a, e, r);
    } else {
      PassFits(s, a, e, r);
    }
  }

  lemma WorkerKeepsLatestSound(s: State, a: WorkerAction)
    requires QueueSound(s) && CycleSound(s) && LatestSound(s) && WorkerEnabled(s, a)
    ensures LatestSound(WorkerNext(s, a))
  {
    var u := WorkerNext(s, a);
    WorkerRowsStep(s, a);
    forall e: nat, r: nat | e < |u.expenses| && IsLatest(u.runs, e, r) ensures LatestFits(u, e, r) {
      LostExpenses.WorkerKeepsLatest(s, a, e, r);
      if r == Subject(s, a) {
        OwnRunKeepsFit(s, a, e);
      } else {
        OtherRunKeepsFit(s, a, e, r);
      }
    }
  }

  lemma LatestStep(s: State, a: Action)
    requires QueueSound(s) && LocksSound(s) && CycleSound(s) && HistorySound(s) && LatestSound(s) && Enabled(s, a)
    ensures LatestSound(Next(s, a))
  {
    match a
    case ByUser(u) => UserKeepsLatestSound(s, u);
    case ByWorker(v) => WorkerKeepsLatestSound(s, v);
  }

  // ---------------------------------------------------------------- what the manager sees

  /**
   Whatever the manager of an expense is shown is one complete rule set computed from exactly the
   fields the expense has now, or the flag of a failed run, or nothing at all.
   */
  lemma ShownResultsAreCurrent(s: State, e: nat, r: nat)
    requires LatestSound(s) && e < |s.expenses| && Reviewed(s.expenses[e]) && LatestRun(s.runs, e) == Some(r)
    ensures r < |s.runs|
    ensures (r in s.contexts && s.contexts[r].expense == e && s.contexts[r].claim == s.expenses[e].claim
            && LatestResults(s, e) == RunAll(s.contexts[r]))
         || (s.runs[r].status == Failed && LatestResults(s, e) == [HANDOVER])
         || LatestResults(s, e) == []
  {
    LatestRunIsLatest(s.runs, e, r);
    assert LatestFits(s, e, r);
  }

  lemma RunAllIsNotEmpty(c: Context)
    ensures RunAll(c) != []
  {
  }

  /** After a worker action the newest run shows what it had stored, and what the action adds if it is its own. */
  lemma ShownAfter(s: State, a: WorkerAction, e: nat, r: nat)
    requires QueueSound(s) && WorkerEnabled(s, a) && IsLatest(s.runs, e, r)
    ensures LatestResults(WorkerNext(s, a), e) ==
            ResultsOf(s.rows, e, r) + if Patient(s, a) == e && Subject(s, a) == r then Stored(s, a) else []
  {
    LostExpenses.WorkerKeepsLatest(s, a, e, r);
    LatestRunIsLatest(WorkerNext(s, a).runs, e, r);
    WorkerLeavesRequests(s, a);
    ResultsAfterAppend(s.rows, Stored(s, a), Patient(s, a), Subject(s, a), e, r);
  }

  /**
   The exact condition for the third case: an expense comes to its manager without any result
   if and only if the worker that brings it there holds an older run than its newest.
   */
  lemma ArrivesWithResults(s: State, a: WorkerAction, e: nat)
    requires QueueSound(s) && CycleSound(s) && LatestSound(s) && WorkerEnabled(s, a) && e < |s.expenses|
    requires InFlight(s.expenses[e]) && |WorkerNext(s, a).expenses| == |s.expenses|
    requires WorkerNext(s, a).expenses[e].status == NeedsReview
    ensures LatestResults(WorkerNext(s, a), e) != [] <==> IsLatest(s.runs, e, Subject(s, a))
  {
    assert HasRun(s.runs, e);
    var r: nat :| IsLatest(s.runs, e, r);
    assert LatestFits(s, e, r);
    ShownAfter(s, a, e, r);
    ArrivalStores(s, a, e);
    if IsLatest(s.runs, e, Subject(s, a)) {
      LatestIsUnique(s.runs, e, r, Subject(s, a));
    }
  }

  lemma ArrivalStores(s: State, a: WorkerAction, e: nat)
    requires QueueSound(s) && WorkerEnabled(s, a) && e < |s.expenses|
    requires InFlight(s.expenses[e]) && |WorkerNext(s, a).expenses| == |s.expenses|
    requires WorkerNext(s, a).expenses[e].status == NeedsReview
    ensures Stored(s, a) != [] && Patient(s, a) == e
  {
    WorkerRow(s, a);
    if a.StoreResults? {
      RunAllIsNotEmpty(ContextOf(s, a.w, a.around));
    }
  }
}
