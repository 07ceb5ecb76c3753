/** Idempotency keys over whole runs: the UNIQUE constraint on them never fires. */
module QueueKeys {
  import opened Common
  import opened Ledger
  import opened Workflow
  import opened QueueInvariants
  import Keys

  /** The number a run carries: how many runs its expense has up to and including it. */
  function NumberOf(runs: seq<Run>, r: nat): nat
    requires r < |runs| && runs[r].target.ForExpense?
  {
    RunCount(runs[..r + 1], runs[r].target.expense)
  }

  ghost predicate KeysSound(runs: seq<Run>) {
    && (forall r :: 0 <= r < |runs| ==> KeyFits(runs, r))
    && (forall r, q :: 0 <= r < q < |runs| && runs[r].target.ForReport? ==> runs[r].target != runs[q].target)
  }

  predicate KeyFits(runs: seq<Run>, r: nat)
    requires r < |runs|
  {
    match runs[r].target
    case ForExpense(e) => runs[r].key == Keys.PipelineKey(e, NumberOf(runs, r))
    case ForReport(p) => runs[r].key == Keys.GenerationKey(p)
  }

  /** Same targets and keys, whatever happened to status and attempt. */
  predicate SameJobs(a: seq<Run>, b: seq<Run>) {
    |a| == |b| && forall r :: 0 <= r < |a| ==> a[r].target == b[r].target && a[r].key == b[r].key
  }

  lemma {:induction false} SameJobsSameCount(a: seq<Run>, b: seq<Run>, e: nat)
    requires |a| == |b| && forall r :: 0 <= r < |a| ==> a[r].target == b[r].target
    ensures RunCount(a, e) == RunCount(b, e)
  {
    if a != [] {
      SameJobsSameCount(a[..|a| - 1], b[..|b| - 1], e);
    }
  }

  lemma SameJobsKeepKeys(a: seq<Run>, b: seq<Run>)
    requires KeysSound(a) && SameJobs(a, b)
    ensures KeysSound(b)
  {
    forall r: nat | r < |b| ensures KeyFits(b, r) {
      assert KeyFits(a, r);
      if b[r].target.ForExpense? {
        SameJobsSameCount(a[..r + 1], b[..r + 1], b[r].target.expense);
      }
    }
  }

  lemma AppendKeepsKeys(a: seq<Run>, x: Run)
    requires KeysSound(a) && KeyFits(a + [x], |a|)
    requires x.target.ForReport? ==> forall r :: 0 <= r < |a| ==> a[r].target != x.target
    ensures KeysSound(a + [x])
  {
    forall r: nat | r < |a| ensures KeyFits(a + [x], r) {
      assert KeyFits(a, r);
      assert (a + [x])[..r + 1] == a[..r + 1];
    }
  }

  lemma FailKeepsJobs(s: State, w: nat)
    requires Stands(s, w)
    ensures SameJobs(s.runs, DoFailRun(s, w).runs)
  {
  }

  lemma WorkerKeepsJobs(s: State, a: WorkerAction)
    requires WorkerEnabled(s, a)
    ensures SameJobs(s.runs, WorkerNext(s, a).runs)
  {
    if a.FailRun? {
      FailKeepsJobs(s, a.w);
    } else if IsMove(a) {
      MoveKeepsJobs(s, a);
    } else {
      EndKeepsJobs(s, a);
    }
  }

  lemma MoveKeepsJobs(s: State, a: WorkerAction)
    requires WorkerEnabled(s, a) && IsMove(a)
    ensures WorkerNext(s, a).runs == s.runs
  {
  }

  lemma EndKeepsJobs(s: State, a: WorkerAction)
    requires WorkerEnabled(s, a) && !IsMove(a) && !a.FailRun?
    ensures SameJobs(s.runs, WorkerNext(s, a).runs)
  {
  }

  lemma KeysStep(s: State, a: Action)
    requires QueueSound(s) && KeysSound(s.runs) && Enabled(s, a)
    ensures KeysSound(Next(s, a).runs)
  {
    match a
    case ByWorker(v) =>
      WorkerKeepsJobs(s, v);
      SameJobsKeepKeys(s.runs, WorkerNext(s, v).runs);
    case ByUser(u) =>
      if u.Submit? {
        var x := DoSubmit(s, u.e).runs[|s.runs|];
        assert (s.runs + [x])[..|s.runs| + 1] == s.runs + [x];
        assert (s.runs + [x])[..|s.runs|] == s.runs;
        AppendKeepsKeys(s.runs, x);
      } else if u.CreateReport? {
        AppendKeepsKeys(s.runs, DoCreateReport(s, u.project, u.year, u.month).runs[|s.runs|]);
      } else {
        UserFrame(s, u);
      }
  }

  // ---------------------------------------------------------------- what the keys give

  function OwnRuns(runs: seq<Run>, e: nat): set<nat> {
    set r: nat | r < |runs| && runs[r].target == ForExpense(e)
  }

  lemma OwnRunsGrow(runs: seq<Run>, x: Run, e: nat)
    ensures OwnRuns(runs + [x], e) == OwnRuns(runs, e) + if x.target == ForExpense(e) then {|runs|} else {}
  {
  }

  /** The count behind a new run's number is the number of runs of the expense. */
  lemma {:induction false} RunCountIsSize(runs: seq<Run>, e: nat)
    ensures RunCount(runs, e) == |OwnRuns(runs, e)|
  {
    if runs != [] {
      var n := |runs| - 1;
      RunCountIsSize(runs[..n], e);
      OwnRunsGrow(runs[..n], runs[n], e);
      assert runs[..n] + [runs[n]] == runs;
    }
  }

  lemma {:induction false} CountGrows(runs: seq<Run>, e: nat, m: nat, n: nat)
    requires m <= n <= |runs|
    ensures RunCount(runs[..m], e) <= RunCount(runs[..n], e)
    ensures m < n && runs[n - 1].target == ForExpense(e) ==> RunCount(runs[..m], e) < RunCount(runs[..n], e)
    decreases n
  {
    if m < n {
      CountGrows(runs, e, m, n - 1);
      assert runs[..n][..n - 1] == runs[..n - 1];
    }
  }

  /** No two runs ever carry the same key. */
  lemma KeysAreUnique(runs: seq<Run>, r: nat, q: nat)
    requires KeysSound(runs) && r < q < |runs|
    ensures runs[r].key != runs[q].key
  {
    assert KeyFits(runs, r) && KeyFits(runs, q);
    match runs[r].target
    case ForExpense(e) =>
      match runs[q].target {
        case ForExpense(e2) =>
          Keys.PipelineKeyIsInjective(e, NumberOf(runs, r), e2, NumberOf(runs, q));
          CountGrows(runs, e, r + 1, q + 1);
        case ForReport(p) => Keys.KindsAreDisjoint(e, NumberOf(runs, r), p);
      }
    case ForReport(p) =>
      match runs[q].target {
        case ForExpense(e2) => Keys.KindsAreDisjoint(e2, NumberOf(runs, q), p);
        case ForReport(p2) => Keys.GenerationKeyIsInjective(p, p2);
      }
  }

  /** An expense with n runs has exactly the keys 1 to n: every number in that range belongs to one of its runs. */
  lemma NumbersAreGapless(runs: seq<Run>, e: nat, n: nat) returns (r: nat)
    requires KeysSound(runs) && 1 <= n <= RunCount(runs, e)
    ensures r < |runs| && runs[r].target == ForExpense(e) && runs[r].key == Keys.PipelineKey(e, n)
  {
    assert runs[..|runs|] == runs;
    r := GaplessBelow(runs, e, n, |runs|);
  }

  lemma {:induction false} GaplessBelow(runs: seq<Run>, e: nat, n: nat, k: nat) returns (r: nat)
    requires KeysSound(runs) && k <= |runs| && 1 <= n <= RunCount(runs[..k], e)
    ensures r < k && runs[r].target == ForExpense(e) && runs[r].key == Keys.PipelineKey(e, n)
    decreases k
  {
    assert runs[..k][..k - 1] == runs[..k - 1];
    if runs[k - 1].target == ForExpense(e) && RunCount(runs[..k], e) == n {
      r := k - 1;
      assert KeyFits(runs, r);
    } else {
      r := GaplessBelow(runs, e, n, k - 1);
    }
  }
}
