/**
 Is a submitted expense ever lost? The worker promises that none is. Exactly two steps break the
 promise: the recovery that gives up on a third attempt, and a death just before the handover.
 */
module LostExpenses {
  import opened Common
  import opened Rules
  import opened Ledger
  import opened Workflow
  import opened QueueInvariants
  import opened QueueProgress
  import opened Locks
  import opened Handover
  import opened Effects

  /** In flight while its newest run has failed for good and no worker is about to hand it over. */
  ghost predicate Stranded(s: State, e: nat) {
    && e < |s.expenses| && InFlight(s.expenses[e])
    && exists r :: IsLatest(s.runs, e, r) && Abandoned(s, r)
  }

  predicate Abandoned(s: State, r: nat)
    requires r < |s.runs|
  {
    s.runs[r].status == Failed && Unattended(s, r)
  }

  /** The newest run is waiting or running, or a worker stands before the handover. */
  ghost predicate LookedAfter(s: State, e: nat) {
    exists r :: IsLatest(s.runs, e, r) && InGoodHands(s, r)
  }

  ghost predicate InGoodHands(s: State, r: nat)
    requires r < |s.runs|
  {
    s.runs[r].status == Queued || s.runs[r].status == Running || (exists w ::
        w in s.workers && s.workers[w] == Work(r, Handling))
  }

  lemma LostOrLookedAfter(s: State, e: nat)
    requires QueueSound(s) && CycleSound(s) && e < |s.expenses| && InFlight(s.expenses[e])
    ensures LookedAfter(s, e) <==> !Stranded(s, e)
  {
    assert HasRun(s.runs, e);
    var r: nat :| IsLatest(s.runs, e, r);
    forall q: nat | IsLatest(s.runs, e, q) ensures q == r {
      LatestIsUnique(s.runs, e, q, r);
    }
    if s.runs[r].status == Failed && !Abandoned(s, r) {
      var w :| w in s.workers && s.workers[w].run == r;
      assert s.workers[w] == Work(r, Handling);
    }
    assert InGoodHands(s, r) <==> !Abandoned(s, r);
  }

  /** The step gives up on run r: the third attempt timed out, or the worker died before the handover. */
  predicate GivesUp(s: State, a: Action, r: nat)
    requires Enabled(s, a) && r < |s.runs|
  {
    a.ByWorker? &&
    match a.worker
    case Requeue(q) => q == r && s.runs[r].attempt >= MAX_ATTEMPTS
    case Crash(w) => s.workers[w] == Work(r, Handling)
    case _ => false
  }

  lemma AbandoningStep(s: State, a: WorkerAction, r: nat)
    requires QueueSound(s) && WorkerEnabled(s, a) && r < |s.runs| && r == Subject(s, a)
    ensures r < |WorkerNext(s, a).runs|
    ensures Abandoned(WorkerNext(s, a), r) <==> GivesUp(s, ByWorker(a), r) || a.Handle?
  {
    if a.FailRun? {
      FailLeavesAttended(s, a.w);
    } else if IsMove(a) {
      MoveShape(s, a);
    } else if a.ClaimRun? || a.Requeue? {
    } else {
      EndShape(s, a);
    }
  }

  lemma FailLeavesAttended(s: State, w: nat)
    requires QueueSound(s) && WorkerEnabled(s, FailRun(w))
    ensures !Abandoned(DoFailRun(s, w), s.workers[w].run)
  {
    var r := s.workers[w].run;
    if s.runs[r].attempt >= MAX_ATTEMPTS {
      assert DoFailRun(s, w).workers[w].run == r;
    }
  }

  lemma OtherRunsStay(s: State, a: WorkerAction, r: nat)
    requires QueueSound(s) && WorkerEnabled(s, a) && r < |s.runs| && r != Subject(s, a)
    ensures r < |WorkerNext(s, a).runs| && (Abandoned(WorkerNext(s, a), r) <==> Abandoned(s, r))
  {
    WorkerStepIsLocal(s, a);
  }

  lemma WorkerKeepsLatest(s: State, a: WorkerAction, e: nat, r: nat)
    requires QueueSound(s) && WorkerEnabled(s, a)
    ensures IsLatest(WorkerNext(s, a).runs, e, r) <==> IsLatest(s.runs, e, r)
  {
    RunsDifferAtSubject(s, a);
    QueueTargets(s, a);
    SameTargetsSameLatest(s.runs, WorkerNext(s, a).runs, e, r);
  }

  lemma QueueTargets(s: State, a: WorkerAction)
    requires WorkerEnabled(s, a)
    ensures SameTargets(s.runs, WorkerNext(s, a).runs)
  {
    if a.FailRun? {
      FailShape(s, a.w);
    } else {
    }
  }

  lemma HandledIsNotInFlight(s: State, w: nat, e: nat)
    requires QueueSound(s) && WorkerEnabled(s, Handle(w)) && e < |s.expenses|
    requires s.runs[s.workers[w].run].target == ForExpense(e)
    ensures !InFlight(DoHandle(s, w).expenses[e])
  {
  }

  lemma StrandsOnlyThen(s: State, a: WorkerAction, e: nat)
    requires QueueSound(s) && WorkerEnabled(s, a) && e < |s.expenses| && !Stranded(s, e)
    requires Stranded(WorkerNext(s, a), e)
    ensures InFlight(s.expenses[e]) && exists r :: IsLatest(s.runs, e, r) && GivesUp(s, ByWorker(a), r)
  {
    var u := WorkerNext(s, a);
    WorkerRow(s, a);
    var r :| IsLatest(u.runs, e, r) && Abandoned(u, r);
    WorkerKeepsLatest(s, a, e, r);
    if r != Subject(s, a) {
      OtherRunsStay(s, a, r);
    } else {
      AbandoningStep(s, a, r);
      if a.Handle? {
        HandledIsNotInFlight(s, a.w, e);
      }
    }
    assert GivesUp(s, ByWorker(a), r);
  }

  lemma StrandsThen(s: State, a: WorkerAction, e: nat, r: nat)
    requires QueueSound(s) && WorkerEnabled(s, a) && e < |s.expenses| && InFlight(s.expenses[e])
    requires IsLatest(s.runs, e, r) && GivesUp(s, ByWorker(a), r)
    ensures Stranded(WorkerNext(s, a), e)
  {
    WorkerKeepsLatest(s, a, e, r);
    AbandoningStep(s, a, r);
    OthersLeaveExpenses(s, a);
  }

  /** A worker step strands an expense exactly when it gives up on the newest run of one in flight. */
  lemma WorkerStrands(s: State, a: WorkerAction, e: nat)
    requires QueueSound(s) && WorkerEnabled(s, a) && e < |s.expenses| && !Stranded(s, e)
    ensures Stranded(WorkerNext(s, a), e) <==>
            InFlight(s.expenses[e]) && exists r :: IsLatest(s.runs, e, r) && GivesUp(s, ByWorker(a), r)
  {
    if Stranded(WorkerNext(s, a), e) {
      StrandsOnlyThen(s, a, e);
    }
    if InFlight(s.expenses[e]) {
      forall r | IsLatest(s.runs, e, r) && GivesUp(s, ByWorker(a), r) ensures Stranded(WorkerNext(s, a), e) {
        StrandsThen(s, a, e, r);
      }
    }
  }

  /** A request never strands an expense. */
  lemma UserNeverStrands(s: State, a: UserAction, e: nat)
    requires QueueSound(s) && LocksSound(s) && UserEnabled(s, a) && e < |s.expenses|
    ensures Stranded(UserNext(s, a), e) ==> Stranded(s, e)
  {
    var u := UserNext(s, a);
    UserRowsStep(s, a);
    UserLeavesWork(s, a);
    if Stranded(u, e) {
      var r :| IsLatest(u.runs, e, r) && Abandoned(u, r);
      if a.Submit? || a.CreateReport? {
        LatestAfterAppend(s.runs, u.runs[|s.runs|], e, r);
      } else {
        UserInFlight(s, a, e);
      }
      assert IsLatest(s.runs, e, r) && Abandoned(s, r);
    }
  }

  lemma UserInFlight(s: State, a: UserAction, e: nat)
    requires LocksSound(s) && UserEnabled(s, a) && !a.Submit? && e < |s.expenses|
    ensures var es := UserNext(s, a).expenses; e < |es| && (InFlight(es[e]) ==> InFlight(s.expenses[e]))
  {
    UserRowsStep(s, a);
    if IsApprovalStep(a) {
    } else if a.Finalize? {
    } else {
    }
  }

  /**
   The promise and its two exceptions: an expense that is not lost becomes lost in a step
   if and only if that step gives up on the newest run of an expense in flight.
   */
  lemma StrandingStep(s: State, a: Action, e: nat)
    requires QueueSound(s) && LocksSound(s) && Enabled(s, a) && e < |s.expenses| && !Stranded(s, e)
    ensures Stranded(Next(s, a), e) <==>
            InFlight(s.expenses[e]) && exists r :: IsLatest(s.runs, e, r) && GivesUp(s, a, r)
  {
    match a
    case ByUser(u) => UserNeverStrands(s, u, e);
    case ByWorker(v) => WorkerStrands(s, v, e);
  }

  // ---------------------------------------------------------------- both exceptions are reachable

  lemma PathOfThree(s: State, a: Action, b: Action, c: Action, rest: seq<Action>)
    requires Enabled(s, a) && Enabled(Next(s, a), b) && Enabled(Next(Next(s, a), b), c)
    requires Path(Next(Next(Next(s, a), b), c), rest)
    ensures Path(s, [a, b, c] + rest) && After(s, [a, b, c] + rest) == After(Next(Next(Next(s, a), b), c), rest)
  {
    var s1, s2 := Next(s, a), Next(Next(s, a), b);
    FirstStep(s2, c, rest);
    FirstStep(s1, b, [c] + rest);
    FirstStep(s, a, [b] + ([c] + rest));
    assert [a, b, c] + rest == [a] + ([b] + ([c] + rest));
  }

  /** One round: a worker takes the run and dies, and the recovery puts the run back or gives up. */
  function AfterRound(s: State, w: nat, r: nat): (u: State)
    requires w !in s.workers && r < |s.runs| && s.runs[r].status == Queued && Unattended(s, r)
    ensures var a, b, c := ByWorker(ClaimRun(w, r)), ByWorker(Crash(w)), ByWorker(Requeue(r));
            Enabled(s, a) && Enabled(Next(s, a), b) && Enabled(Next(Next(s, a), b), c) && u ==
                Next(Next(Next(s, a), b), c)
    ensures u.expenses == s.expenses && SameTargets(s.runs, u.runs) && Unattended(u, r) && w !in u.workers
    ensures u.runs[r].attempt == s.runs[r].attempt + 1
    ensures u.runs[r].status == if s.runs[r].attempt + 1 >= MAX_ATTEMPTS then Failed else Queued
  {
    var s1 := DoClaimRun(s, w, r);
    var s2 := Leave(NoteLate(s1, w), w);
    DoRequeue(s2, r)
  }

  /** Three silent deaths lose any submitted expense whose run is waiting. */
  lemma {:induction false} TimeoutsStrand(s: State, e: nat, r: nat, w: nat) returns (acts: seq<Action>)
    requires e < |s.expenses| && InFlight(s.expenses[e]) && IsLatest(s.runs, e, r) && s.runs[r].status == Queued
    requires s.runs[r].attempt < MAX_ATTEMPTS && w !in s.workers && Unattended(s, r)
    ensures Path(s, acts) && Stranded(After(s, acts), e)
    decreases MAX_ATTEMPTS - s.runs[r].attempt
  {
    var u := AfterRound(s, w, r);
    var a, b, c := ByWorker(ClaimRun(w, r)), ByWorker(Crash(w)), ByWorker(Requeue(r));
    SameTargetsSameLatest(s.runs, u.runs, e, r);
    var rest: seq<Action> := [];
    if u.runs[r].status == Queued {
      rest := TimeoutsStrand(u, e, r, w);
    } else {
      assert Abandoned(u, r);
    }
    PathOfThree(s, a, b, c, rest);
    acts := [a, b, c] + rest;
  }

  /** A last failure whose worker dies before the handover loses the expense as well. */
  lemma CrashStrands(s: State, e: nat, r: nat, w: nat) returns (acts: seq<Action>)
    requires QueueSound(s) && e < |s.expenses| && InFlight(s.expenses[e]) && IsLatest(s.runs, e, r)
    requires w in s.workers && s.workers[w].run == r && s.runs[r].attempt == MAX_ATTEMPTS
    requires !s.workers[w].step.Handling?
    ensures acts == [ByWorker(FailRun(w)), ByWorker(Crash(w))] && Path(s, acts) && Stranded(After(s, acts), e)
  {
    var u := DoFailRun(s, w);
    FailShape(s, w);
    FailKeepsQueue(s, w);
    SameTargetsSameLatest(s.runs, u.runs, e, r);
    CrashAbandons(u, e, r, w);
    FirstStep(u, ByWorker(Crash(w)), []);
    FirstStep(s, ByWorker(FailRun(w)), [ByWorker(Crash(w))]);
    acts := [ByWorker(FailRun(w))] + [ByWorker(Crash(w))];
  }

  lemma CrashAbandons(s: State, e: nat, r: nat, w: nat)
    requires QueueSound(s) && e < |s.expenses| && InFlight(s.expenses[e]) && IsLatest(s.runs, e, r)
    requires w in s.workers && s.workers[w] == Work(r, Handling)
    ensures Stranded(Next(s, ByWorker(Crash(w))), e)
  {
  }
}
