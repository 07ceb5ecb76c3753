/** Why the workers come to rest: every worker step, failure, death and recovery uses up potential. */
module QueueProgress {
  import opened Common
  import opened Workflow
  import opened QueueInvariants

  const FULL_ATTEMPT: nat := 8

  function AttemptsLeft(r: Run): nat {
    if r.attempt < MAX_ATTEMPTS then MAX_ATTEMPTS - r.attempt else 0
  }

  function StepsLeft(x: Step): nat {
    match x
    case Claimed => 6
    case Gated(_) => 5
    case DuplicatesRead(_, _) => 4
    case BudgetRead(_, _, _, _) => 3
    case Done => 2
    case Handling => 1
  }

  /** The step of the worker on a run, if one is. */
  ghost function Attendant(workers: map<nat, Work>, r: nat): (x: Option<Step>)
    ensures x.Some? ==> exists w :: w in workers && workers[w] == Work(r, x.value)
    ensures x.None? ==> forall w :: w in workers ==> workers[w].run != r
  {
    if w :| w in workers && workers[w].run == r then Some(workers[w].step) else None
  }

  function Weight(r: Run, x: Option<Step>): nat {
    match r.status
    case Queued => FULL_ATTEMPT * AttemptsLeft(r)
    case Running => FULL_ATTEMPT * AttemptsLeft(r) + 1 + if x.Some? then StepsLeft(x.value) else 0
    case Failed => if x.Some? then 1 else 0
    case Succeeded => 0
  }

  ghost function WeightAt(s: State, r: nat): nat
    requires r < |s.runs|
  {
    Weight(s.runs[r], Attendant(s.workers, r))
  }

  ghost function Weights(s: State): (ws: seq<nat>)
    ensures |ws| == |s.runs| && forall r :: 0 <= r < |ws| ==> ws[r] == WeightAt(s, r)
  {
    seq(|s.runs|, r requires 0 <= r < |s.runs| => WeightAt(s, r))
  }

  ghost function Sum(ws: seq<nat>): nat {
    if ws == [] then 0 else Sum(ws[..|ws| - 1]) + ws[|ws| - 1]
  }

  /** One entry falls and the others stay: the sum falls. */
  lemma {:induction false} SumFalls(a: seq<nat>, b: seq<nat>, r: nat)
    requires r < |a| == |b| && b[r] < a[r]
    requires forall q :: 0 <= q < |a| && q != r ==> b[q] == a[q]
    ensures Sum(b) < Sum(a)
  {
    if r == |a| - 1 {
      assert b[..r] == a[..r];
    } else {
      SumFalls(a[..|a| - 1], b[..|b| - 1], r);
    }
  }

  ghost function Potential(s: State): nat {
    Sum(Weights(s))
  }

  lemma AttendantIs(s: State, w: nat)
    requires WorkersFit(s) && w in s.workers
    ensures Attendant(s.workers, s.workers[w].run) == Some(s.workers[w].step)
  {
  }

  /** From s to u only run r changed, and only workers on r came, went or moved. */
  ghost predicate OnlyRun(s: State, u: State, r: nat) {
    && |s.runs| == |u.runs| && r < |s.runs|
    && (forall q :: 0 <= q < |s.runs| && q != r ==> u.runs[q] == s.runs[q])
    && (forall w :: w in s.workers && s.workers[w].run != r ==> w in u.workers && u.workers[w] == s.workers[w])
    && (forall w :: w in u.workers && u.workers[w].run != r ==> w in s.workers && u.workers[w] == s.workers[w])
  }

  lemma OthersWeighTheSame(s: State, u: State, r: nat, q: nat)
    requires WorkersFit(s) && WorkersFit(u) && OnlyRun(s, u, r) && q < |s.runs| && q != r
    ensures WeightAt(u, q) == WeightAt(s, q)
  {
  }

  lemma PotentialFalls(s: State, u: State, r: nat)
    requires WorkersFit(s) && WorkersFit(u) && OnlyRun(s, u, r) && WeightAt(u, r) < WeightAt(s, r)
    ensures Potential(u) < Potential(s)
  {
    forall q | 0 <= q < |s.runs| && q != r ensures Weights(u)[q] == Weights(s)[q] {
      OthersWeighTheSame(s, u, r, q);
    }
    SumFalls(Weights(s), Weights(u), r);
  }

  /** The run a worker action is about. */
  function Subject(s: State, a: WorkerAction): nat
    requires WorkerEnabled(s, a)
  {
    match a
    case ClaimRun(_, r) => r
    case Requeue(r) => r
    case Gate(w) => s.workers[w].run
    case ReadDuplicates(w) => s.workers[w].run
    case ReadBudget(w) => s.workers[w].run
    case StoreResults(w, _) => s.workers[w].run
    case Finish(w) => s.workers[w].run
    case FailRun(w) => s.workers[w].run
    case Handle(w) => s.workers[w].run
    case Crash(w) => s.workers[w].run
  }

  lemma MoveShape(s: State, a: WorkerAction)
    requires WorkerEnabled(s, a) && IsMove(a)
    ensures var u := WorkerNext(s, a);
            && u.runs == s.runs && a.w in u.workers
            && u.workers == s.workers[a.w := s.workers[a.w].(step := u.workers[a.w].step)]
            && StepsLeft(u.workers[a.w].step) < StepsLeft(s.workers[a.w].step)
            && !s.workers[a.w].step.Handling?
  {
  }

  lemma MoveFalls(s: State, u: State, w: nat)
    requires QueueSound(s) && WorkersFit(u) && u.runs == s.runs && w in s.workers && w in u.workers
    requires u.workers == s.workers[w := s.workers[w].(step := u.workers[w].step)]
    requires StepsLeft(u.workers[w].step) < StepsLeft(s.workers[w].step) && !s.workers[w].step.Handling?
    ensures OnlyRun(s, u, s.workers[w].run) && WeightAt(u, s.workers[w].run) < WeightAt(s, s.workers[w].run)
  {
  }

  lemma MoveUsesPotential(s: State, a: WorkerAction)
    requires QueueSound(s) && WorkerEnabled(s, a) && IsMove(a)
    ensures var u := WorkerNext(s, a);
            OnlyRun(s, u, Subject(s, a)) && WeightAt(u, Subject(s, a)) < WeightAt(s, Subject(s, a))
  {
    PipelineKeepsQueue(s, a);
    MoveShape(s, a);
    MoveFalls(s, WorkerNext(s, a), a.w);
  }

  /** A worker leaves a run that no longer counts as open for it. */
  lemma LeaveFalls(s: State, u: State, w: nat)
    requires QueueSound(s) && WorkersFit(u) && w in s.workers && u.workers == s.workers - {w}
    requires var r := s.workers[w].run;
             |u.runs| == |s.runs| && u.runs == s.runs[r := u.runs[r]]
                 && Weight(u.runs[r], None) < Weight(s.runs[r], Some(s.workers[w].step))
    ensures OnlyRun(s, u, s.workers[w].run) && WeightAt(u, s.workers[w].run) < WeightAt(s, s.workers[w].run)
  {
  }

  lemma LastFailureFalls(s: State, u: State, w: nat)
    requires QueueSound(s) && WorkersFit(u) && w in s.workers && !s.workers[w].step.Handling?
    requires u.runs == s.runs[s.workers[w].run := s.runs[s.workers[w].run].(status := Failed)]
    requires u.workers == s.workers[w := s.workers[w].(step := Handling)]
    ensures OnlyRun(s, u, s.workers[w].run) && WeightAt(u, s.workers[w].run) < WeightAt(s, s.workers[w].run)
  {
    AttendantIs(s, w);
    AttendantIs(u, w);
  }

  lemma FailUsesPotential(s: State, w: nat)
    requires QueueSound(s) && WorkerEnabled(s, FailRun(w))
    ensures var u := DoFailRun(s, w);
            OnlyRun(s, u, s.workers[w].run) && WeightAt(u, s.workers[w].run) < WeightAt(s, s.workers[w].run)
  {
    FailKeepsQueue(s, w);
    if s.runs[s.workers[w].run].attempt >= MAX_ATTEMPTS {
      LastFailureFalls(s, DoFailRun(s, w), w);
    } else {
      LeaveFalls(s, DoFailRun(s, w), w);
    }
  }

  lemma ClaimUsesPotential(s: State, w: nat, r: nat)
    requires QueueSound(s) && WorkerEnabled(s, ClaimRun(w, r))
    ensures var u := DoClaimRun(s, w, r); OnlyRun(s, u, r) && WeightAt(u, r) < WeightAt(s, r)
  {
  }

  lemma EndShape(s: State, a: WorkerAction)
    requires QueueSound(s) && WorkerEnabled(s, a) && (a.Finish? || a.Handle? || a.Crash?)
    ensures var u := WorkerNext(s, a);
            var r := s.workers[a.w].run;
            && u.workers == s.workers - {a.w}
            && |u.runs| == |s.runs| && u.runs == s.runs[r := u.runs[r]]
            && (if a.Finish? then u.runs[r].status == Succeeded else u.runs[r] == s.runs[r])
  {
  }

  lemma EndUsesPotential(s: State, a: WorkerAction)
    requires QueueSound(s) && WorkerEnabled(s, a) && (a.Finish? || a.Handle? || a.Crash?)
    ensures var u := WorkerNext(s, a);
            OnlyRun(s, u, Subject(s, a)) && WeightAt(u, Subject(s, a)) < WeightAt(s, Subject(s, a))
  {
    EndShape(s, a);
    EndingKeepsQueue(s, a);
    LeaveFalls(s, WorkerNext(s, a), a.w);
  }

  lemma RequeueUsesPotential(s: State, r: nat)
    requires QueueSound(s) && WorkerEnabled(s, Requeue(r))
    ensures var u := DoRequeue(s, r); OnlyRun(s, u, r) && WeightAt(u, r) < WeightAt(s, r)
  {
  }

  /** A worker action concerns one run, and that run weighs less afterwards. */
  lemma WorkerStepIsLocal(s: State, a: WorkerAction)
    requires QueueSound(s) && WorkerEnabled(s, a)
    ensures var u := WorkerNext(s, a);
            OnlyRun(s, u, Subject(s, a)) && WeightAt(u, Subject(s, a)) < WeightAt(s, Subject(s, a))
  {
    if IsMove(a) {
      MoveUsesPotential(s, a);
    } else if a.FailRun? {
      FailUsesPotential(s, a.w);
    } else if a.ClaimRun? {
      ClaimUsesPotential(s, a.w, a.r);
    } else if a.Requeue? {
      RequeueUsesPotential(s, a.r);
    } else {
      EndUsesPotential(s, a);
    }
  }

  /** Every worker action, whichever it is, lowers the potential. */
  lemma WorkerUsesPotential(s: State, a: WorkerAction)
    requires QueueSound(s) && WorkerEnabled(s, a)
    ensures Potential(WorkerNext(s, a)) < Potential(s)
  {
    WorkerStepIsLocal(s, a);
    WorkerKeepsQueue(s, a);
    PotentialFalls(s, WorkerNext(s, a), Subject(s, a));
  }

  // ---------------------------------------------------------------- requests

  predicate Enqueues(a: Action) {
    a.ByUser? && (a.user.Submit? || a.user.CreateReport?)
  }

  lemma SamePotential(s: State, u: State)
    requires u.workers == s.workers && u.runs == s.runs
    ensures Potential(u) == Potential(s)
  {
    assert Weights(u) == Weights(s);
  }

  lemma NewRunAddsPotential(s: State, u: State, x: Run)
    requires QueueSound(s) && u.workers == s.workers && u.runs == s.runs + [x] && x.status == Queued && x.attempt == 0
    ensures Potential(u) == Potential(s) + 3 * FULL_ATTEMPT
  {
    assert Weights(u)[..|s.runs|] == Weights(s);
  }

  /** A request leaves the potential alone, or adds one fresh run's worth. */
  lemma UserAddsPotential(s: State, a: UserAction)
    requires QueueSound(s) && UserEnabled(s, a)
    ensures Potential(UserNext(s, a)) == Potential(s) + if Enqueues(ByUser(a)) then 3 * FULL_ATTEMPT else 0
  {
    if !Enqueues(ByUser(a)) {
      UserFrame(s, a);
      SamePotential(s, UserNext(s, a));
    } else {
      NewRunAddsPotential(s, UserNext(s, a), UserNext(s, a).runs[|s.runs|]);
    }
  }

  function WorkerSteps(acts: seq<Action>): nat {
    if acts == [] then 0 else (if acts[0].ByWorker? then 1 else 0) + WorkerSteps(acts[1..])
  }

  function NewJobs(acts: seq<Action>): nat {
    if acts == [] then 0 else (if Enqueues(acts[0]) then 1 else 0) + NewJobs(acts[1..])
  }

  /**
   Whatever fails or crashes and however requests interleave, the number of worker steps of any
   run is bounded by the potential it starts with plus 24 for each job queued on the way.
   Without new jobs the workers therefore come to rest.
   */
  lemma {:induction false} WorkersComeToRest(s: State, acts: seq<Action>)
    requires QueueSound(s) && Path(s, acts)
    ensures WorkerSteps(acts) + Potential(After(s, acts)) <= Potential(s) + 3 * FULL_ATTEMPT * NewJobs(acts)
    decreases |acts|
  {
    if acts != [] {
      var a := acts[0];
      match a {
        case ByUser(u) => UserAddsPotential(s, u);
        case ByWorker(v) => WorkerUsesPotential(s, v);
      }
      QueueStep(s, a);
      WorkersComeToRest(Next(s, a), acts[1..]);
    }
  }

  /** At rest means drained: as long as a run is queued or running some worker action is possible. */
  lemma RestIsDrained(s: State, r: nat, w: nat)
    requires QueueSound(s) && r < |s.runs| && (s.runs[r].status == Queued || s.runs[r].status == Running)
            && w !in s.workers
    ensures exists a :: WorkerEnabled(s, a)
  {
    if s.runs[r].status == Queued {
      assert WorkerEnabled(s, ClaimRun(w, r));
    } else if v :| v in s.workers && s.workers[v].run == r {
      assert WorkerEnabled(s, FailRun(v));
    } else {
      assert WorkerEnabled(s, Requeue(r));
    }
  }

  // ---------------------------------------------------------------- claims alone

  function ClaimsLeft(runs: seq<Run>): nat {
    if runs == [] then 0
    else
      var last := runs[|runs| - 1];
      ClaimsLeft(runs[..|runs| - 1]) + if last.status == Queued || last.status == Running then AttemptsLeft(last) else 0
  }

  function OwnClaims(r: Run): nat {
    if r.status == Queued || r.status == Running then AttemptsLeft(r) else 0
  }

  lemma {:induction false} ClaimsAfterChange(runs: seq<Run>, k: nat, x: Run)
    requires k < |runs|
    ensures ClaimsLeft(runs[k := x]) == ClaimsLeft(runs) + OwnClaims(x) - OwnClaims(runs[k])
  {
    if k == |runs| - 1 {
      assert runs[k := x][..|runs| - 1] == runs[..|runs| - 1];
    } else {
      assert runs[k := x][..|runs| - 1] == runs[..|runs| - 1][k := x];
      ClaimsAfterChange(runs[..|runs| - 1], k, x);
    }
  }

  lemma WorkerClaims(s: State, a: WorkerAction)
    requires QueueSound(s) && WorkerEnabled(s, a)
    ensures ClaimsLeft(WorkerNext(s, a).runs) + (if a.ClaimRun? then 1 else 0) <= ClaimsLeft(s.runs)
  {
    var r := Subject(s, a);
    var u := WorkerNext(s, a);
    assert u.runs == s.runs[r := u.runs[r]] by { RunsDifferAtSubject(s, a); }
    ClaimsAfterChange(s.runs, r, u.runs[r]);
    OwnClaimsStep(s, a);
  }

  lemma RunsDifferAtSubject(s: State, a: WorkerAction)
    requires QueueSound(s) && WorkerEnabled(s, a)
    ensures Subject(s, a) < |s.runs| == |WorkerNext(s, a).runs|
    ensures WorkerNext(s, a).runs == s.runs[Subject(s, a) := WorkerNext(s, a).runs[Subject(s, a)]]
  {
  }

  lemma OwnClaimsStep(s: State, a: WorkerAction)
    requires QueueSound(s) && WorkerEnabled(s, a) && Subject(s, a) < |s.runs| == |WorkerNext(s, a).runs|
    ensures OwnClaims(WorkerNext(s, a).runs[Subject(s, a)]) + (if a.ClaimRun? then 1 else 0) <=
            OwnClaims(s.runs[Subject(s, a)])
  {
  }

  lemma UserClaims(s: State, a: UserAction)
    requires QueueSound(s) && UserEnabled(s, a)
    ensures ClaimsLeft(UserNext(s, a).runs) == ClaimsLeft(s.runs) + if Enqueues(ByUser(a)) then 3 else 0
  {
    if Enqueues(ByUser(a)) {
      assert UserNext(s, a).runs[..|s.runs|] == s.runs;
    } else {
      UserFrame(s, a);
    }
  }

  function ClaimSteps(acts: seq<Action>): nat {
    if acts == [] then 0 else (if acts[0].ByWorker? && acts[0].worker.ClaimRun? then 1 else 0) + ClaimSteps(acts[1..])
  }

  /** The queue is claimed from at most as often as its open runs have attempts left, plus three times per new job. */
  lemma {:induction false} ClaimsAreBounded(s: State, acts: seq<Action>)
    requires QueueSound(s) && Path(s, acts)
    ensures ClaimSteps(acts) + ClaimsLeft(After(s, acts).runs) <= ClaimsLeft(s.runs) + 3 * NewJobs(acts)
    decreases |acts|
  {
    if acts != [] {
      match acts[0] {
        case ByUser(u) => UserClaims(s, u);
        case ByWorker(v) => WorkerClaims(s, v);
      }
      QueueStep(s, acts[0]);
      ClaimsAreBounded(Next(s, acts[0]), acts[1..]);
    }
  }

  // ---------------------------------------------------------------- finished is finished

  /** A run that succeeded or failed never changes again. */
  lemma {:induction false} FinishedRunsStay(s: State, acts: seq<Action>, r: nat)
    requires QueueSound(s) && Path(s, acts) && r < |s.runs|
    requires s.runs[r].status == Succeeded || s.runs[r].status == Failed
    ensures r < |After(s, acts).runs| && After(s, acts).runs[r] == s.runs[r]
    decreases |acts|
  {
    if acts != [] {
      FinishedRunStep(s, acts[0], r);
      QueueStep(s, acts[0]);
      FinishedRunsStay(Next(s, acts[0]), acts[1..], r);
    }
  }

  lemma FinishedRunStep(s: State, a: Action, r: nat)
    requires QueueSound(s) && Enabled(s, a) && r < |s.runs|
    requires s.runs[r].status == Succeeded || s.runs[r].status == Failed
    ensures r < |Next(s, a).runs| && Next(s, a).runs[r] == s.runs[r]
  {
    match a
    case ByUser(u) =>
      if u.Submit? || u.CreateReport? {
      } else {
        UserFrame(s, u);
      }
    case ByWorker(v) =>
      RunsDifferAtSubject(s, v);
      if Subject(s, v) == r {
        FinishedSubject(s, v);
      }
  }

  lemma FinishedSubject(s: State, a: WorkerAction)
    requires QueueSound(s) && WorkerEnabled(s, a) && Subject(s, a) < |s.runs| == |WorkerNext(s, a).runs|
    requires s.runs[Subject(s, a)].status == Succeeded || s.runs[Subject(s, a)].status == Failed
    ensures WorkerNext(s, a).runs[Subject(s, a)] == s.runs[Subject(s, a)]
  {
  }
}
