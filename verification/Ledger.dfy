/** Expenses, budgets and the SQL aggregates over them. */
module Ledger {
  import opened Common
  import opened Rules
  import opened Calendar

  datatype Status = Draft | Submitted | Validating | NeedsReview | Approved | Rejected

  datatype Expense = Expense(claim: Claim, status: Status, reportId: Option<nat>, deleted: bool,
      rejectReason: Option<string>)

  datatype Budget = Budget(category: Category, amount: nat)

  /** A WHERE clause over the expense table. */
  datatype Query =
    | Where(status: Status, project: nat, category: Option<Category>, since: Option<int>, until: Option<int>)
    | LockedBy(report: nat)

  predicate Matches(e: Expense, q: Query) {
    match q
    case Where(status, project, category, since, until) =>
      && e.status == status && !e.deleted && e.claim.project == project
      && (category.Some? ==> e.claim.category == category.value)
      && (since.Some? ==> since.value <= e.claim.spentAt)
      && (until.Some? ==> e.claim.spentAt < until.value)
    case LockedBy(report) => e.reportId == Some(report)
  }

  /** `coalesce(sum(amount), 0)` */
  function Total(es: seq<Expense>, q: Query): (t: nat) {
    if es == [] then 0
    else Total(es[..|es| - 1], q) + if Matches(es[|es| - 1], q) then es[|es| - 1].claim.amount else 0
  }

  /** `count(*)` */
  function Count(es: seq<Expense>, q: Query): (n: nat) {
    if es == [] then 0
    else Count(es[..|es| - 1], q) + if Matches(es[|es| - 1], q) then 1 else 0
  }

  function ApprovedIn(project: nat, category: Category): Query {
    Where(Approved, project, Some(category), None, None)
  }

  /** Sum of the approved expenses of a project and category. */
  function ApprovedSum(es: seq<Expense>, project: nat, category: Category): nat {
    Total(es, ApprovedIn(project, category))
  }

  // ---------------------------------------------------------------- how aggregates move

  /**
   Rows that satisfy p in es satisfy q in fs with the same amount, and the other way round; extra
   rows of fs do not.
   */
  ghost predicate SameRows(es: seq<Expense>, p: Query, fs: seq<Expense>, q: Query) {
    && |es| <= |fs|
    && (forall i :: 0 <= i < |es| ==> (Matches(es[i], p) <==> Matches(fs[i], q)))
    && (forall i :: 0 <= i < |es| && Matches(es[i], p) ==> es[i].claim.amount == fs[i].claim.amount)
    && (forall i :: |es| <= i < |fs| ==> !Matches(fs[i], q))
  }

  lemma {:induction false} SameRowsSameTotal(es: seq<Expense>, p: Query, fs: seq<Expense>, q: Query)
    requires SameRows(es, p, fs, q)
    ensures Total(es, p) == Total(fs, q) && Count(es, p) == Count(fs, q)
    decreases |fs|
  {
    if fs != [] {
      if |es| < |fs| {
        SameRowsSameTotal(es, p, fs[..|fs| - 1], q);
      } else {
        SameRowsSameTotal(es[..|es| - 1], p, fs[..|fs| - 1], q);
      }
    }
  }

  /** Rows that satisfied the query still do, with the same amount. */
  ghost predicate KeepsRows(es: seq<Expense>, fs: seq<Expense>, q: Query) {
    && |es| <= |fs|
    && forall i :: 0 <= i < |es| && Matches(es[i], q) ==> Matches(fs[i], q) && es[i].claim.amount == fs[i].claim.amount
  }

  lemma {:induction false} TotalsGrow(es: seq<Expense>, fs: seq<Expense>, q: Query)
    requires KeepsRows(es, fs, q)
    ensures Total(es, q) <= Total(fs, q)
    decreases |fs|
  {
    if fs != [] {
      if |es| < |fs| {
        TotalsGrow(es, fs[..|fs| - 1], q);
      } else {
        TotalsGrow(es[..|es| - 1], fs[..|fs| - 1], q);
      }
    }
  }

  /** One row changes: the total moves by that row alone. */
  lemma {:induction false} TotalAfterChange(es: seq<Expense>, k: nat, x: Expense, q: Query)
    requires k < |es|
    ensures Total(es[k := x], q) == Total(es, q)
              + (if Matches(x, q) then x.claim.amount else 0) - (if Matches(es[k], q) then es[k].claim.amount else 0)
  {
    var fs := es[k := x];
    if k == |es| - 1 {
      assert fs[..|es| - 1] == es[..|es| - 1];
    } else {
      assert fs[..|es| - 1] == es[..|es| - 1][k := x];
      TotalAfterChange(es[..|es| - 1], k, x, q);
    }
  }

  /** A single row that satisfies the query is part of the total. */
  lemma {:induction false} RowWithinTotal(es: seq<Expense>, k: nat, q: Query)
    requires k < |es| && Matches(es[k], q)
    ensures es[k].claim.amount <= Total(es, q)
  {
    if k < |es| - 1 {
      RowWithinTotal(es[..|es| - 1], k, q);
    }
  }

  /** A period splits at any day inside it. */
  lemma {:induction false} TotalSplits(es: seq<Expense>, status: Status, project: nat, category: Option<Category>,
        since: Option<int>, day: int, until: int)
    requires day <= until && (since.Some? ==> since.value <= day)
    ensures Total(es, Where(status, project, category, since, Some(until))) ==
            Total(es, Where(status, project, category, since, Some(day)))
                + Total(es, Where(status, project, category, Some(day), Some(until)))
  {
    if es != [] {
      TotalSplits(es[..|es| - 1], status, project, category, since, day, until);
    }
  }

  // ---------------------------------------------------------------- sums of all categories at once

  /** `SELECT category, sum(amount) ... GROUP BY category`: only categories with a row appear. */
  function GroupSums(es: seq<Expense>, q: Query): map<Category, nat> {
    if es == [] then map[]
    else
      var rest := GroupSums(es[..|es| - 1], q);
      var e := es[|es| - 1];
      if Matches(e, q) then rest[e.claim.category := SumIn(rest, e.claim.category) + e.claim.amount] else rest
  }

  /** `sums.get(category, 0)` */
  function SumIn(sums: map<Category, nat>, category: Category): nat {
    if category in sums then sums[category] else 0
  }

  /** The grouped query gives every category the sum that a query for it alone would. */
  lemma {:induction false} GroupSumsAgree(es: seq<Expense>, status: Status, project: nat, since: Option<int>,
        until: Option<int>, category: Category)
    ensures SumIn(GroupSums(es, Where(status, project, None, since, until)), category) ==
            Total(es, Where(status, project, Some(category), since, until))
  {
    if es != [] {
      GroupSumsAgree(es[..|es| - 1], status, project, since, until, category);
    }
  }

  // ---------------------------------------------------------------- budgets

  predicate DistinctCategories(bs: seq<Budget>) {
    forall i, j :: 0 <= i < j < |bs| ==> bs[i].category != bs[j].category
  }

  /** The budget of a category, if it is registered. */
  function BudgetOf(bs: seq<Budget>, category: Category): Option<nat> {
    if bs == [] then None
    else if bs[|bs| - 1].category == category then Some(bs[|bs| - 1].amount)
    else BudgetOf(bs[..|bs| - 1], category)
  }

  /** The lookup finds the one row of the category. */
  lemma {:induction false} BudgetOfFinds(bs: seq<Budget>, k: nat)
    requires DistinctCategories(bs) && k < |bs|
    ensures BudgetOf(bs, bs[k].category) == Some(bs[k].amount)
  {
    if k < |bs| - 1 {
      BudgetOfFinds(bs[..|bs| - 1], k);
    }
  }

  lemma {:induction false} BudgetOfMisses(bs: seq<Budget>, category: Category)
    requires forall k :: 0 <= k < |bs| ==> bs[k].category != category
    ensures BudgetOf(bs, category) == None
  {
    if bs != [] {
      BudgetOfMisses(bs[..|bs| - 1], category);
    }
  }

  datatype BudgetLine = BudgetLine(category: Category, budget: nat, approved: nat, remaining: int)

  /** The budget lines of a project, in the order of its budgets. */
  function BudgetSummaries(es: seq<Expense>, project: nat, bs: seq<Budget>): (ls: seq<BudgetLine>)
    ensures |ls| == |bs|
  {
    var sums := GroupSums(es, Where(Approved, project, None, None, None));
    seq(|bs|, i requires 0 <= i < |bs| =>
      var approved := SumIn(sums, bs[i].category);
      BudgetLine(bs[i].category, bs[i].amount, approved, bs[i].amount - approved))
  }

  // ---------------------------------------------------------------- the monthly summary

  datatype CategoryLine = CategoryLine(category: Category, budget: nat, monthApproved: nat, cumulative: nat,
      remaining: int)

  datatype Summary = Summary(
    lines: seq<CategoryLine>,
    budget: nat, monthApproved: nat, cumulative: nat, remaining: int,
    approvedCount: nat, rejectedCount: nat, pendingReviewCount: nat)

  function LineFor(es: seq<Expense>, project: nat, b: Budget, start: int, end: int): CategoryLine {
    var month := Total(es, Where(Approved, project, Some(b.category), Some(start), Some(end)));
    var cumulative := Total(es, Where(Approved, project, Some(b.category), None, Some(end)));
    CategoryLine(b.category, b.amount, month, cumulative, b.amount - cumulative)
  }

  function LinesFor(es: seq<Expense>, project: nat, bs: seq<Budget>, start: int, end: int): (ls: seq<CategoryLine>)
    ensures |ls| == |bs| && forall i :: 0 <= i < |bs| ==> ls[i] == LineFor(es, project, bs[i], start, end)
  {
    seq(|bs|, i requires 0 <= i < |bs| => LineFor(es, project, bs[i], start, end))
  }

  function SumBudget(ls: seq<CategoryLine>): nat {
    if ls == [] then 0 else SumBudget(ls[..|ls| - 1]) + ls[|ls| - 1].budget
  }

  function SumMonth(ls: seq<CategoryLine>): nat {
    if ls == [] then 0 else SumMonth(ls[..|ls| - 1]) + ls[|ls| - 1].monthApproved
  }

  function SumCumulative(ls: seq<CategoryLine>): nat {
    if ls == [] then 0 else SumCumulative(ls[..|ls| - 1]) + ls[|ls| - 1].cumulative
  }

  function SumRemaining(ls: seq<CategoryLine>): int {
    if ls == [] then 0 else SumRemaining(ls[..|ls| - 1]) + ls[|ls| - 1].remaining
  }

  function BuildSummary(es: seq<Expense>, project: nat, bs: seq<Budget>, year: nat, month: nat): Summary
    requires IsMonth(year, month)
  {
    var (start, end) := MonthRange(year, month);
    var lines := LinesFor(es, project, bs, start, end);
    Summary(lines, SumBudget(lines), SumMonth(lines), SumCumulative(lines), SumRemaining(lines),
            Count(es, Where(Approved, project, None, Some(start), Some(end))),
            Count(es, Where(Rejected, project, None, Some(start), Some(end))),
            Count(es, Where(NeedsReview, project, None, None, None)))
  }

  /** The approved expenses of one month of a project, over all categories. */
  function ApprovedOfMonth(project: nat, year: nat, month: nat): Query
    requires IsMonth(year, month)
  {
    Where(Approved, project, None, Some(MonthRange(year, month).0), Some(MonthRange(year, month).1))
  }

  // ---------------------------------------------------------------- arithmetic of the summary

  function MonthColumn(es: seq<Expense>, project: nat, bs: seq<Budget>, start: int, end: int): nat {
    SumMonth(LinesFor(es, project, bs, start, end))
  }

  /** One more budget row adds one more line. */
  lemma MonthColumnGrows(es: seq<Expense>, project: nat, bs: seq<Budget>, start: int, end: int)
    requires bs != []
    ensures MonthColumn(es, project, bs, start, end) ==
            MonthColumn(es, project, bs[..|bs| - 1], start, end)
                + LineFor(es, project, bs[|bs| - 1], start, end).monthApproved
  {
    assert LinesFor(es, project, bs, start, end)[..|bs| - 1] == LinesFor(es, project, bs[..|bs| - 1], start, end);
  }

  /** What an expense adds to the month column: its amount once if some line has its category. */
  function Addition(e: Expense, project: nat, bs: seq<Budget>, start: int, end: int): nat {
    if Matches(e, Where(Approved, project, None, Some(start), Some(end))) && BudgetOf(bs, e.claim.category).Some?
        then e.claim.amount else 0
  }

  lemma {:induction false} MonthColumnStep(es: seq<Expense>, project: nat, bs: seq<Budget>, start: int, end: int)
    requires es != [] && DistinctCategories(bs)
    ensures MonthColumn(es, project, bs, start, end) ==
            MonthColumn(es[..|es| - 1], project, bs, start, end) + Addition(es[|es| - 1], project, bs, start, end)
    decreases |bs|
  {
    if bs != [] {
      var cs, last := bs[..|bs| - 1], bs[|bs| - 1];
      var e := es[|es| - 1];
      MonthColumnStep(es, project, cs, start, end);
      MonthColumnGrows(es, project, bs, start, end);
      MonthColumnGrows(es[..|es| - 1], project, bs, start, end);
      if e.claim.category == last.category {
        BudgetOfMisses(cs, last.category);
      }
    }
  }

  ghost predicate ApprovedAreBudgeted(es: seq<Expense>, project: nat, bs: seq<Budget>) {
    forall i :: 0 <= i < |es| && es[i].status == Approved && es[i].claim.project == project ==>
        BudgetOf(bs, es[i].claim.category).Some?
  }

  /** The month total of a summary is the sum of all approved expenses of the month when each has a budget line. */
  lemma {:induction false} MonthTotalIsAll(es: seq<Expense>, project: nat, bs: seq<Budget>, start: int, end: int)
    requires DistinctCategories(bs) && ApprovedAreBudgeted(es, project, bs)
    ensures MonthColumn(es, project, bs, start, end) ==
            Total(es, Where(Approved, project, None, Some(start), Some(end)))
  {
    if es == [] {
      EmptyMonthColumn(project, bs, start, end);
    } else {
      MonthTotalIsAll(es[..|es| - 1], project, bs, start, end);
      MonthColumnStep(es, project, bs, start, end);
    }
  }

  lemma {:induction false} EmptyMonthColumn(project: nat, bs: seq<Budget>, start: int, end: int)
    ensures MonthColumn([], project, bs, start, end) == 0
  {
    if bs != [] {
      EmptyMonthColumn(project, bs[..|bs| - 1], start, end);
      MonthColumnGrows([], project, bs, start, end);
    }
  }

  /** The remaining total is the budget total less the cumulative total. */
  lemma {:induction false} RemainingColumn(es: seq<Expense>, project: nat, bs: seq<Budget>, start: int, end: int)
    ensures var ls := LinesFor(es, project, bs, start, end);
            SumRemaining(ls) == SumBudget(ls) - SumCumulative(ls)
  {
    if bs != [] {
      RemainingColumn(es, project, bs[..|bs| - 1], start, end);
      assert LinesFor(es, project, bs, start, end)[..|bs| - 1] == LinesFor(es, project, bs[..|bs| - 1], start, end);
    }
  }

  /** The month before. */
  function Previous(year: nat, month: nat): (nat, nat)
    requires IsMonth(year, month) && (year > 1 || month > 1)
  {
    if month == 1 then (year - 1, 12) else (year, month - 1)
  }

  /** Month sums of a category from a first month up to and including a last one. */
  function MonthsUpTo(es: seq<Expense>, project: nat, category: Category, year: nat, month: nat): nat
    requires IsMonth(year, month)
    decreases year, month
  {
    var here := Total(es, Where(Approved, project, Some(category), Some(MonthRange(year, month).0),
        Some(MonthRange(year, month).1)));
    if year == 1 && month == 1 then here
    else
      var (y, m) := Previous(year, month);
      MonthsUpTo(es, project, category, y, m) + here
  }

  ghost predicate DatedFromYearOne(es: seq<Expense>) {
    forall i :: 0 <= i < |es| ==> es[i].claim.spentAt >= 1
  }

  lemma {:induction false} NothingBeforeYearOne(es: seq<Expense>, project: nat, category: Category)
    requires DatedFromYearOne(es)
    ensures Total(es, Where(Approved, project, Some(category), None, Some(1))) == 0
  {
    if es != [] {
      NothingBeforeYearOne(es[..|es| - 1], project, category);
    }
  }

  /**
   The cumulative column is the sum of the month columns of all months so far: the ranges leave no
   gap and do not overlap.
   */
  lemma {:induction false} CumulativeIsSumOfMonths(es: seq<Expense>, project: nat, category: Category, year: nat,
        month: nat)
    requires IsMonth(year, month) && DatedFromYearOne(es)
    ensures Total(es, Where(Approved, project, Some(category), None, Some(MonthRange(year, month).1))) ==
            MonthsUpTo(es, project, category, year, month)
    decreases year, month
  {
    var (start, end) := MonthRange(year, month);
    MonthWithinYear(year, month);
    TotalSplits(es, Approved, project, Some(category), None, start, end);
    if year == 1 && month == 1 {
      NothingBeforeYearOne(es, project, category);
    } else {
      var (y, m) := Previous(year, month);
      CumulativeIsSumOfMonths(es, project, category, y, m);
    }
  }

  // ---------------------------------------------------------------- the aggregates over explicit sets of rows

  /** The amounts of the rows at the given positions. */
  ghost function SumAt(es: seq<Expense>, ids: set<nat>): nat {
    if es == [] then 0
    else SumAt(es[..|es| - 1], ids) + if |es| - 1 in ids then es[|es| - 1].claim.amount else 0
  }

  lemma {:induction false} TotalIsSumAt(es: seq<Expense>, q: Query, ids: set<nat>)
    requires forall i: nat :: i < |es| ==> (i in ids <==> Matches(es[i], q))
    ensures Total(es, q) == SumAt(es, ids)
  {
    if es != [] {
      TotalIsSumAt(es[..|es| - 1], q, ids);
    }
  }

  lemma {:induction false} CountIsSize(es: seq<Expense>, q: Query, ids: set<nat>)
    requires ids == set i: nat | i < |es| && Matches(es[i], q)
    ensures Count(es, q) == |ids|
  {
    if es != [] {
      var n := |es| - 1;
      var rest := set i: nat | i < n && Matches(es[..n][i], q);
      CountIsSize(es[..n], q, rest);
      assert ids == if Matches(es[n], q) then rest + {n} else rest;
    }
  }

  /** The approved expenses of a project and category. */
  ghost function ApprovedRows(es: seq<Expense>, project: nat, category: Category): set<nat> {
    set i: nat | i < |es| && es[i].status == Approved && !es[i].deleted
                 && es[i].claim.project == project && es[i].claim.category == category
  }

  lemma ApprovedSumInFull(es: seq<Expense>, project: nat, category: Category)
    ensures ApprovedSum(es, project, category) == SumAt(es, ApprovedRows(es, project, category))
  {
    TotalIsSumAt(es, ApprovedIn(project, category), ApprovedRows(es, project, category));
  }

  /** A line of the summary: what was approved of the category in the month and up to its end. */
  lemma LineInFull(es: seq<Expense>, project: nat, b: Budget, start: int, end: int)
    ensures var x, rows := LineFor(es, project, b, start, end), ApprovedRows(es, project, b.category);
            && x.category == b.category && x.budget == b.amount
            && x.monthApproved == SumAt(es, set i | i in rows && start <= es[i].claim.spentAt < end)
            && x.cumulative == SumAt(es, set i | i in rows && es[i].claim.spentAt < end)
            && x.remaining == b.amount - x.cumulative
  {
    var rows := ApprovedRows(es, project, b.category);
    TotalIsSumAt(es, Where(Approved, project, Some(b.category), Some(start), Some(end)),
      set i | i in rows && start <= es[i].claim.spentAt < end);
    TotalIsSumAt(es, Where(Approved, project, Some(b.category), None, Some(end)),
      set i | i in rows && es[i].claim.spentAt < end);
  }

  /** The live expenses of a project with a status. */
  ghost function RowsWith(es: seq<Expense>, project: nat, status: Status): set<nat> {
    set i: nat | i < |es| && es[i].status == status && !es[i].deleted && es[i].claim.project == project
  }

  /** The counts of the summary: approved and rejected expenses of the month, and whatever is under review. */
  lemma CountsInFull(es: seq<Expense>, project: nat, bs: seq<Budget>, year: nat, month: nat)
    requires IsMonth(year, month)
    ensures var x, range := BuildSummary(es, project, bs, year, month), MonthRange(year, month);
            && x.approvedCount == |set i | i in RowsWith(es, project, Approved) && range.0 <=
                es[i].claim.spentAt < range.1|
            && x.rejectedCount == |set i | i in RowsWith(es, project, Rejected) && range.0 <=
                es[i].claim.spentAt < range.1|
            && x.pendingReviewCount == |RowsWith(es, project, NeedsReview)|
  {
    var (start, end) := MonthRange(year, month);
    var approved := set i | i in RowsWith(es, project, Approved) && start <= es[i].claim.spentAt < end;
    var rejected := set i | i in RowsWith(es, project, Rejected) && start <= es[i].claim.spentAt < end;
    CountIsSize(es, Where(Approved, project, None, Some(start), Some(end)), approved);
    CountIsSize(es, Where(Rejected, project, None, Some(start), Some(end)), rejected);
    CountIsSize(es, Where(NeedsReview, project, None, None, None), RowsWith(es, project, NeedsReview));
  }

  function SumOf(ns: seq<int>): int {
    if ns == [] then 0 else SumOf(ns[..|ns| - 1]) + ns[|ns| - 1]
  }

  lemma {:induction false} ColumnsInFull(ls: seq<CategoryLine>)
    ensures SumBudget(ls) == SumOf(seq(|ls|, i requires 0 <= i < |ls| => ls[i].budget))
    ensures SumMonth(ls) == SumOf(seq(|ls|, i requires 0 <= i < |ls| => ls[i].monthApproved))
    ensures SumCumulative(ls) == SumOf(seq(|ls|, i requires 0 <= i < |ls| => ls[i].cumulative))
    ensures SumRemaining(ls) == SumOf(seq(|ls|, i requires 0 <= i < |ls| => ls[i].remaining))
  {
    if ls != [] {
      var n := |ls| - 1;
      ColumnsInFull(ls[..n]);
      assert seq(|ls|, i requires 0 <= i < |ls| => ls[i].budget)[..n] ==
          seq(n, i requires 0 <= i < n => ls[..n][i].budget);
      assert seq(|ls|, i requires 0 <= i < |ls| => ls[i].monthApproved)[..n] ==
             seq(n, i requires 0 <= i < n => ls[..n][i].monthApproved);
      assert seq(|ls|, i requires 0 <= i < |ls| => ls[i].cumulative)[..n] ==
             seq(n, i requires 0 <= i < n => ls[..n][i].cumulative);
      assert seq(|ls|, i requires 0 <= i < |ls| => ls[i].remaining)[..n] ==
             seq(n, i requires 0 <= i < n => ls[..n][i].remaining);
    }
  }

  /**
   A summary over the rows themselves: one line per budget in their order, with what was approved of
   the category in the month and up to its end; totals that are the sums of the columns; and the
   numbers of expenses approved and rejected in the month and of all under review.
   */
  ghost predicate SummaryHolds(x: Summary, es: seq<Expense>, project: nat, bs: seq<Budget>, year: nat, month: nat)
    requires IsMonth(year, month)
  {
    var (start, end) := MonthRange(year, month);
    && |x.lines| == |bs|
    && (forall k :: 0 <= k < |bs| ==>
          var rows := ApprovedRows(es, project, bs[k].category);
          && x.lines[k].category == bs[k].category && x.lines[k].budget == bs[k].amount
          && x.lines[k].monthApproved == SumAt(es, set i | i in rows && start <= es[i].claim.spentAt < end)
          && x.lines[k].cumulative == SumAt(es, set i | i in rows && es[i].claim.spentAt < end)
          && x.lines[k].remaining == bs[k].amount - x.lines[k].cumulative)
    && x.budget == SumOf(seq(|bs|, k requires 0 <= k < |bs| => x.lines[k].budget))
    && x.monthApproved == SumOf(seq(|bs|, k requires 0 <= k < |bs| => x.lines[k].monthApproved))
    && x.cumulative == SumOf(seq(|bs|, k requires 0 <= k < |bs| => x.lines[k].cumulative))
    && x.remaining == SumOf(seq(|bs|, k requires 0 <= k < |bs| => x.lines[k].remaining))
    && x.approvedCount == |set i | i in RowsWith(es, project, Approved) && start <= es[i].claim.spentAt < end|
    && x.rejectedCount == |set i | i in RowsWith(es, project, Rejected) && start <= es[i].claim.spentAt < end|
    && x.pendingReviewCount == |RowsWith(es, project, NeedsReview)|
  }

  /** A built summary holds over the rows it was built from. */
  lemma SummaryInFull(es: seq<Expense>, project: nat, bs: seq<Budget>, year: nat, month: nat)
    requires IsMonth(year, month)
    ensures SummaryHolds(BuildSummary(es, project, bs, year, month), es, project, bs, year, month)
  {
    var (start, end) := MonthRange(year, month);
    forall k | 0 <= k < |bs| {
      LineInFull(es, project, bs[k], start, end);
    }
    ColumnsInFull(LinesFor(es, project, bs, start, end));
    CountsInFull(es, project, bs, year, month);
  }
}
