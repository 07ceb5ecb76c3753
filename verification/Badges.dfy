/** The risk badges of the expense list: worst severity per expense, all in one query. */
module Badges {
  import opened Common
  import opened Rules
  import opened Ledger
  import opened Workflow
  import opened Handover
  import opened Validation

  function SeverityRank(v: Severity): nat {
    match v
    case Fail => 3
    case Warn => 2
    case Info => 1
    case Pass => 0
  }

  function OfRank(n: nat): (v: Severity)
    ensures n <= 3 ==> SeverityRank(v) == n
  {
    if n == 3 then Fail else if n == 2 then Warn else if n == 1 then Info else Pass
  }

  /** The newest run of each listed expense. */
  function NewestRuns(runs: seq<Run>, ids: seq<nat>): set<nat> {
    if ids == [] then {}
    else
      var rest := NewestRuns(runs, ids[1..]);
      match LatestRun(runs, ids[0])
      case None => rest
      case Some(r) => rest + {r}
  }

  /** `max(rank)` over the joined rows of one expense; None where the group is empty. */
  function GroupMax(rows: seq<Row>, newest: set<nat>, e: nat): Option<nat> {
    if rows == [] then None
    else
      var row := rows[|rows| - 1];
      var rest := GroupMax(rows[..|rows| - 1], newest, e);
      if row.expense != e || row.run !in newest then rest
      else if rest.Some? && rest.value >= SeverityRank(row.result.severity) then rest
      else Some(SeverityRank(row.result.severity))
  }

  /** The badge of every expense that has a joined row. */
  function WorstSeverities(s: State, ids: seq<nat>): map<nat, Severity> {
    var newest := NewestRuns(s.runs, ids);
    map e | e in (set i | 0 <= i < |s.rows| :: s.rows[i].expense) && GroupMax(s.rows, newest, e).Some? ::
        OfRank(GroupMax(s.rows, newest, e).value)
  }

  lemma {:induction false} NewestRunsAre(runs: seq<Run>, ids: seq<nat>, r: nat)
    ensures r in NewestRuns(runs, ids) <==> exists e :: e in ids && LatestRun(runs, e) == Some(r)
  {
    if ids != [] {
      NewestRunsAre(runs, ids[1..], r);
      assert forall e :: e in ids <==> e == ids[0] || e in ids[1..];
    }
  }

  /** The join on the run alone picks, for expense e, exactly the rows of its own newest run. */
  lemma JoinPicksOwnRun(s: State, ids: seq<nat>, i: nat)
    requires HistorySound(s) && i < |s.rows|
    ensures s.rows[i].run in NewestRuns(s.runs, ids) <==>
            s.rows[i].expense in ids && LatestRun(s.runs, s.rows[i].expense) == Some(s.rows[i].run)
  {
    var r := s.rows[i].run;
    NewestRunsAre(s.runs, ids, r);
    forall e | e in ids && LatestRun(s.runs, e) == Some(r) ensures e == s.rows[i].expense {
      LatestRunIsLatest(s.runs, e, r);
    }
  }

  predicate Bounds(worst: Option<nat>, rs: seq<Result>) {
    if worst.None? then rs == []
    else
      && worst.value <= 3
      && (exists i :: 0 <= i < |rs| && SeverityRank(rs[i].severity) == worst.value)
      && (forall i :: 0 <= i < |rs| ==> SeverityRank(rs[i].severity) <= worst.value)
  }

  lemma BoundsOneMore(worst: Option<nat>, rs: seq<Result>, x: Result)
    requires Bounds(worst, rs)
    ensures Bounds(if worst.Some? && worst.value >= SeverityRank(x.severity) then worst
            else Some(SeverityRank(x.severity)), rs + [x])
  {
    var all := rs + [x];
    assert all[|rs|] == x;
    if worst.Some? && worst.value >= SeverityRank(x.severity) {
      var i :| 0 <= i < |rs| && SeverityRank(rs[i].severity) == worst.value;
      assert SeverityRank(all[i].severity) == worst.value;
    }
  }

  lemma {:induction false} GroupMaxBounds(rows: seq<Row>, newest: set<nat>, e: nat, r: nat)
    requires forall i :: 0 <= i < |rows| && rows[i].expense == e ==> (rows[i].run in newest <==> rows[i].run == r)
    ensures Bounds(GroupMax(rows, newest, e), ResultsOf(rows, e, r))
  {
    if rows != [] {
      var row := rows[|rows| - 1];
      GroupMaxBounds(rows[..|rows| - 1], newest, e, r);
      assert ResultsOf(rows[..|rows| - 1], e, r) + [] == ResultsOf(rows[..|rows| - 1], e, r);
      if row.expense == e && row.run == r {
        BoundsOneMore(GroupMax(rows[..|rows| - 1], newest, e), ResultsOf(rows[..|rows| - 1], e, r), row.result);
      }
    }
  }

  lemma {:induction false} NoGroup(rows: seq<Row>, newest: set<nat>, e: nat)
    requires forall i :: 0 <= i < |rows| && rows[i].expense == e ==> rows[i].run !in newest
    ensures GroupMax(rows, newest, e).None?
  {
    if rows != [] {
      NoGroup(rows[..|rows| - 1], newest, e);
    }
  }

  lemma GroupHasRow(rows: seq<Row>, newest: set<nat>, e: nat)
    ensures GroupMax(rows, newest, e).Some? ==> e in (set i | 0 <= i < |rows| :: rows[i].expense)
  {
    if e !in (set i | 0 <= i < |rows| :: rows[i].expense) {
      forall i | 0 <= i < |rows| ensures rows[i].expense != e {
        assert rows[i].expense in (set j | 0 <= j < |rows| :: rows[j].expense);
      }
      NoGroup(rows, newest, e);
    }
  }

  /**
   The one query over many expenses agrees with asking each for its latest results: an expense has
   a badge exactly if it is listed and its newest run has results, and the badge is the worst of them.
   */
  lemma BadgeIsLatestVerdict(s: State, ids: seq<nat>, e: nat)
    requires HistorySound(s)
    ensures e in WorstSeverities(s, ids) <==> e in ids && LatestResults(s, e) != []
    ensures e in WorstSeverities(s, ids) ==>
              var rs, v := LatestResults(s, e), WorstSeverities(s, ids)[e];
              (exists i :: 0 <= i < |rs| && rs[i].severity == v) && (forall i :: 0 <= i < |rs| ==>
                  SeverityRank(rs[i].severity) <= SeverityRank(v))
  {
    var newest := NewestRuns(s.runs, ids);
    forall i: nat | i < |s.rows| ensures s.rows[i].run in newest <==>
        s.rows[i].expense in ids && LatestRun(s.runs, s.rows[i].expense) == Some(s.rows[i].run) {
      JoinPicksOwnRun(s, ids, i);
    }
    GroupHasRow(s.rows, newest, e);
    if e in ids && LatestRun(s.runs, e).Some? {
      GroupMaxBounds(s.rows, newest, e, LatestRun(s.runs, e).value);
      RankIsInjective();
    } else {
      NoGroup(s.rows, newest, e);
    }
  }

  lemma RankIsInjective()
    ensures forall v, w :: SeverityRank(v) == SeverityRank(w) ==> v == w
  {
  }

  /**
   The badge written out over the stored rows of the expense's newest run: FAIL if one of them
   failed, otherwise WARN if one warned, otherwise INFO if one informed, otherwise PASS.
   */
  lemma BadgeInWords(s: State, ids: seq<nat>, e: nat)
    requires HistorySound(s) && e in ids
    ensures var badges := WorstSeverities(s, ids);
            var has := v => exists i :: 0 <= i < |s.rows| && s.rows[i].expense == e && s.rows[i].result.severity == v
                                        && IsLatest(s.runs, e, s.rows[i].run);
            && (has(Fail) <==> e in badges && badges[e] == Fail)
            && (!has(Fail) && has(Warn) <==> e in badges && badges[e] == Warn)
            && (!has(Fail) && !has(Warn) && has(Info) <==> e in badges && badges[e] == Info)
            && (!has(Fail) && !has(Warn) && !has(Info) && has(Pass) <==> e in badges && badges[e] == Pass)
  {
    SeverityOnRecord(s, e, Fail);
    SeverityOnRecord(s, e, Warn);
    SeverityOnRecord(s, e, Info);
    SeverityOnRecord(s, e, Pass);
    BadgeOfResults(s, ids, e);
  }

  lemma BadgeOfResults(s: State, ids: seq<nat>, e: nat)
    requires HistorySound(s) && e in ids
    ensures var badges, rs := WorstSeverities(s, ids), LatestResults(s, e);
            var has := v => exists k :: 0 <= k < |rs| && rs[k].severity == v;
            && (has(Fail) <==> e in badges && badges[e] == Fail)
            && (!has(Fail) && has(Warn) <==> e in badges && badges[e] == Warn)
            && (!has(Fail) && !has(Warn) && has(Info) <==> e in badges && badges[e] == Info)
            && (!has(Fail) && !has(Warn) && !has(Info) && has(Pass) <==> e in badges && badges[e] == Pass)
  {
    BadgeIsLatestVerdict(s, ids, e);
  }

  lemma SeverityOnRecord(s: State, e: nat, v: Severity)
    ensures (exists k :: 0 <= k < |LatestResults(s, e)| && LatestResults(s, e)[k].severity == v) <==>
            exists i :: 0 <= i < |s.rows| && s.rows[i].expense == e && s.rows[i].result.severity == v
                        && IsLatest(s.runs, e, s.rows[i].run)
  {
    var rs := LatestResults(s, e);
    if k :| 0 <= k < |rs| && rs[k].severity == v {
      ShownOnRecord(s, e, rs[k]);
    }
    if i :| 0 <= i < |s.rows| && s.rows[i].expense == e && s.rows[i].result.severity == v
            && IsLatest(s.runs, e, s.rows[i].run) {
      ShownOnRecord(s, e, s.rows[i].result);
      var k :| 0 <= k < |rs| && rs[k] == s.rows[i].result;
    }
  }
}
