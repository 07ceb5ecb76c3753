/**
 The matcher as it runs: result records updated in place, three hash indexes, one shared set
 of used ids. Each method is proved against the scanning matcher of module Matching.
 */
module Matcher {
  import opened Common
  import opened Matching

  class MatchResult {
    const line: CardLine
    var status: MatchStatus
    var expenseId: Option<int>
    var note: Option<Note>

    constructor (line: CardLine)
      ensures this.line == line && View() == OPEN
    {
      this.line := line;
      status := Unmatched;
      expenseId := None;
      note := None;
    }

    function View(): Verdict
      reads this
    {
      Verdict(status, expenseId, note)
    }
  }

  predicate Distinct(results: seq<MatchResult>) {
    forall i, j :: 0 <= i < j < |results| ==> results[i] != results[j]
  }

  ghost function LinesOf(results: seq<MatchResult>): (s: seq<CardLine>)
    ensures |s| == |results| && forall i :: 0 <= i < |s| ==> s[i] == results[i].line
  {
    seq(|results|, i requires 0 <= i < |results| => results[i].line)
  }

  ghost function VerdictsOf(results: seq<MatchResult>): (s: seq<Verdict>)
    reads results
    ensures |s| == |results| && forall i :: 0 <= i < |s| ==> s[i] == results[i].View()
  {
    seq(|results|, i requires 0 <= i < |results| reads results => results[i].View())
  }

  ghost function BoardOf(results: seq<MatchResult>, used: set<int>): Board
    reads results
  {
    Board(VerdictsOf(results), used)
  }

  /** The candidate list a lookup function gives each line. */
  ghost function Answers(candidatesOf: CardLine -> seq<ExpenseKey>, lines: seq<CardLine>): (c: seq<seq<ExpenseKey>>)
    ensures |c| == |lines| && forall i :: 0 <= i < |c| ==> c[i] == candidatesOf(lines[i])
  {
    seq(|lines|, i requires 0 <= i < |lines| => candidatesOf(lines[i]))
  }

  // ---------------------------------------------------------------- one tier

  method Assign(tier: MatchStatus, results: seq<MatchResult>, candidatesOf: CardLine -> seq<ExpenseKey>, used: set<int>)
      returns (used': set<int>)
    requires Distinct(results)
    modifies results
    ensures BoardOf(results, used') ==
            RunTier(tier, Answers(candidatesOf, LinesOf(results)), LinesOf(results), old(BoardOf(results, used)))
  {
    var pending := CollectPending(results, candidatesOf, used);
    var queue := StableSort(pending);
    assert queue == Queue(Answers(candidatesOf, LinesOf(results)), LinesOf(results), BoardOf(results, used));
    used' := SettleAll(tier, results, queue, used);
  }

  lemma GreedyNext(tier: MatchStatus, q: seq<Offer>, b: Board, k: nat)
    requires InRange(q, |b.verdicts|) && k < |q|
    ensures Greedy(tier, q[..k + 1], b) == Settle(tier, Greedy(tier, q[..k], b), q[k])
  {
    assert q[..k + 1][..k] == q[..k];
  }

  /** `used.add`, `res.status =`, `res.expense_id =`, `res.note =` for each entry still open on both sides. */
  method SettleAll(tier: MatchStatus, results: seq<MatchResult>, queue: seq<Offer>, used: set<int>)
      returns (used': set<int>)
    requires Distinct(results) && InRange(queue, |results|)
    modifies results
    ensures BoardOf(results, used') == Greedy(tier, queue, old(BoardOf(results, used)))
  {
    ghost var start := BoardOf(results, used);
    used' := used;
    var k := 0;
    while k < |queue|
      invariant 0 <= k <= |queue|
      invariant BoardOf(results, used') == Greedy(tier, queue[..k], start)
    {
      GreedyNext(tier, queue, start, k);
      used' := SettleOne(tier, results, queue[k], used');
      k := k + 1;
    }
    assert queue[..k] == queue;
  }

  method SettleOne(tier: MatchStatus, results: seq<MatchResult>, o: Offer, used: set<int>) returns (used': set<int>)
    requires Distinct(results) && o.at < |results|
    modifies results[o.at]
    ensures BoardOf(results, used') == Settle(tier, old(BoardOf(results, used)), o)
  {
    used' := used;
    var res := results[o.at];
    if res.status == Unmatched && o.exp.id !in used {
      used' := used + {o.exp.id};
      res.status := tier;
      res.expenseId := Some(o.exp.id);
      res.note := NoteFor(tier, o.gap);
    }
  }

  method CollectPending(results: seq<MatchResult>, candidatesOf: CardLine -> seq<ExpenseKey>, used: set<int>)
      returns (pending: seq<Offer>)
    ensures pending == Pending(Answers(candidatesOf, LinesOf(results)), LinesOf(results), BoardOf(results, used),
            |results|)
  {
    ghost var answers := Answers(candidatesOf, LinesOf(results));
    pending := [];
    var i := 0;
    while i < |results|
      invariant 0 <= i <= |results|
      invariant pending == Pending(answers, LinesOf(results), BoardOf(results, used), i)
    {
      var ln := results[i].line;
      if results[i].status == Unmatched {
        var cands := candidatesOf(ln);
        ghost var before := pending;
        var j := 0;
        while j < |cands|
          invariant 0 <= j <= |cands|
          invariant pending == before + OffersOf(cands[..j], ln, i, used)
        {
          assert cands[..j + 1][..j] == cands[..j];
          if cands[j].id !in used {
            pending := pending + [Offer(Gap(ln.approvedOn, cands[j].spentAt), ln.rowNo, i, cands[j])];
          }
          j := j + 1;
        }
        assert cands[..j] == cands;
      }
      i := i + 1;
    }
  }

  // ---------------------------------------------------------------- the indexes

  type Index<K> = map<K, seq<ExpenseKey>>

  function Lookup<K>(index: Index<K>, key: K): seq<ExpenseKey> {
    if key in index then index[key] else []
  }

  /** `setdefault(key, []).append(e)` */
  function Appended<K(!new)>(index: Index<K>, key: K, e: ExpenseKey): (r: Index<K>)
    ensures forall k :: Lookup(r, k) == if k == key then Lookup(index, k) + [e] else Lookup(index, k)
  {
    index[key := Lookup(index, key) + [e]]
  }

  function WithNumber(es: seq<ExpenseKey>, bizNo: string, amount: int): seq<ExpenseKey> {
    if es == [] then []
    else
      var rest := WithNumber(es[..|es| - 1], bizNo, amount);
      var e := es[|es| - 1];
      if Truthy(e.bizNo) && e.bizNo.value == bizNo && e.amount == amount then rest + [e] else rest
  }

  function OnDay(es: seq<ExpenseKey>, amount: int, day: int): seq<ExpenseKey> {
    if es == [] then []
    else
      var rest := OnDay(es[..|es| - 1], amount, day);
      var e := es[|es| - 1];
      if e.amount == amount && e.spentAt == day then rest + [e] else rest
  }

  function WithNumberOnDay(es: seq<ExpenseKey>, bizNo: string, amount: int, day: int): seq<ExpenseKey> {
    if es == [] then []
    else
      var rest := WithNumberOnDay(es[..|es| - 1], bizNo, amount, day);
      var e := es[|es| - 1];
      if Truthy(e.bizNo) && e.bizNo.value == bizNo && e.amount == amount && e.spentAt == day then rest + [e] else rest
  }

  datatype Indexes = Indexes(
    byExact: Index<(string, int, int)>,
    byBizAmount: Index<(string, int)>,
    byAmountDate: Index<(int, int)>)

  /** Each bucket holds its expenses in input order. */
  ghost predicate Faithful(ix: Indexes, es: seq<ExpenseKey>) {
    && (forall b, a, d :: Lookup(ix.byExact, (b, a, d)) == WithNumberOnDay(es, b, a, d))
    && (forall b, a :: Lookup(ix.byBizAmount, (b, a)) == WithNumber(es, b, a))
    && (forall a, d :: Lookup(ix.byAmountDate, (a, d)) == OnDay(es, a, d))
  }

  /** One pass over the expenses fills all three indexes. */
  method BuildIndexes(es: seq<ExpenseKey>) returns (ix: Indexes)
    ensures Faithful(ix, es)
  {
    var byExact: Index<(string, int, int)>, byBizAmount: Index<(string, int)>, byAmountDate: Index<(int, int)> := map[],
        map[], map[];
    var n := 0;
    while n < |es|
      invariant 0 <= n <= |es|
      invariant Faithful(Indexes(byExact, byBizAmount, byAmountDate), es[..n])
    {
      var e := es[n];
      assert es[..n + 1][..n] == es[..n];
      if Truthy(e.bizNo) {
        byExact := Appended(byExact, (e.bizNo.value, e.amount, e.spentAt), e);
        byBizAmount := Appended(byBizAmount, (e.bizNo.value, e.amount), e);
      }
      byAmountDate := Appended(byAmountDate, (e.amount, e.spentAt), e);
      n := n + 1;
    }
    assert es[..n] == es;
    ix := Indexes(byExact, byBizAmount, byAmountDate);
  }

  /** `[e for e in bucket if gap <= near_days]` */
  function Within(bucket: seq<ExpenseKey>, day: int, nearDays: int): seq<ExpenseKey> {
    if bucket == [] then []
    else
      var rest := Within(bucket[..|bucket| - 1], day, nearDays);
      var e := bucket[|bucket| - 1];
      if Gap(day, e.spentAt) <= nearDays then rest + [e] else rest
  }

  /** `[e for e in bucket if the line or e has no number]` */
  function EitherMissing(bucket: seq<ExpenseKey>, bizNo: Option<string>): seq<ExpenseKey> {
    if bucket == [] then []
    else
      var rest := EitherMissing(bucket[..|bucket| - 1], bizNo);
      var e := bucket[|bucket| - 1];
      if bizNo.None? || e.bizNo.None? then rest + [e] else rest
  }

  lemma {:induction false} ExactBucketIsScan(es: seq<ExpenseKey>, ln: CardLine, nearDays: int)
    ensures (if Truthy(ln.bizNo) then WithNumberOnDay(es, ln.bizNo.value, ln.amount, ln.approvedOn) else []) ==
            Compatibles(Matched, nearDays, ln, es)
  {
    if es != [] {
      ExactBucketIsScan(es[..|es| - 1], ln, nearDays);
    }
  }

  lemma {:induction false} NearBucketIsScan(es: seq<ExpenseKey>, ln: CardLine, nearDays: int)
    ensures (if Truthy(ln.bizNo) then Within(WithNumber(es, ln.bizNo.value, ln.amount), ln.approvedOn, nearDays)
            else []) ==
            Compatibles(MatchedNear, nearDays, ln, es)
  {
    if es != [] {
      NearBucketIsScan(es[..|es| - 1], ln, nearDays);
    }
  }

  lemma {:induction false} DayBucketIsScan(es: seq<ExpenseKey>, ln: CardLine, nearDays: int)
    ensures EitherMissing(OnDay(es, ln.amount, ln.approvedOn), ln.bizNo) == Compatibles(Candidate, nearDays, ln, es)
  {
    if es != [] {
      DayBucketIsScan(es[..|es| - 1], ln, nearDays);
    }
  }

  /** The candidates a tier looks up for a line. */
  function TierCandidates(tier: MatchStatus, ix: Indexes, nearDays: int, ln: CardLine): seq<ExpenseKey> {
    match tier
    case Matched => if Truthy(ln.bizNo) then Lookup(ix.byExact, (ln.bizNo.value, ln.amount, ln.approvedOn)) else []
    case MatchedNear => if Truthy(ln.bizNo)
        then Within(Lookup(ix.byBizAmount, (ln.bizNo.value, ln.amount)), ln.approvedOn, nearDays) else []
    case Candidate => EitherMissing(Lookup(ix.byAmountDate, (ln.amount, ln.approvedOn)), ln.bizNo)
    case Unmatched => []
  }

  /** The index lookup answers exactly what a scan of all expenses would, in the same order. */
  lemma LookupIsScan(tier: MatchStatus, ix: Indexes, nearDays: int, ln: CardLine, es: seq<ExpenseKey>)
    requires Faithful(ix, es) && tier != Unmatched
    ensures TierCandidates(tier, ix, nearDays, ln) == Compatibles(tier, nearDays, ln, es)
  {
    match tier
    case Matched => ExactBucketIsScan(es, ln, nearDays);
    case MatchedNear => NearBucketIsScan(es, ln, nearDays);
    case Candidate => DayBucketIsScan(es, ln, nearDays);
  }

  // ---------------------------------------------------------------- the matcher

  method AssignByIndex(tier: MatchStatus, results: seq<MatchResult>, ix: Indexes, nearDays: int, used: set<int>,
        ghost es: seq<ExpenseKey>)
      returns (used': set<int>)
    requires Distinct(results) && Faithful(ix, es) && tier != Unmatched
    modifies results
    ensures BoardOf(results, used') == TierByScan(tier, nearDays, LinesOf(results), es, old(BoardOf(results, used)))
  {
    var candidatesOf := (ln: CardLine) => TierCandidates(tier, ix, nearDays, ln);
    forall i | 0 <= i < |results| ensures candidatesOf(results[i].line) ==
        Compatibles(tier, nearDays, results[i].line, es) {
      LookupIsScan(tier, ix, nearDays, results[i].line, es);
    }
    assert Answers(candidatesOf, LinesOf(results)) == Candidates(tier, nearDays, LinesOf(results), es);
    used' := Assign(tier, results, candidatesOf, used);
  }

  method MatchLines(lines: seq<CardLine>, es: seq<ExpenseKey>, nearDays: int)
      returns (results: seq<MatchResult>, unmatched: seq<int>)
    ensures fresh(results) && LinesOf(results) == lines
    ensures VerdictsOf(results) == MatchByScan(lines, es, nearDays).verdicts
    ensures unmatched == Leftover(es, MatchByScan(lines, es, nearDays).used)
  {
    results := OpenResults(lines);
    assert BoardOf(results, {}) == StartBoard(lines);
    var ix := BuildIndexes(es);
    var used := AssignByIndex(Matched, results, ix, nearDays, {}, es);
    used := AssignByIndex(MatchedNear, results, ix, nearDays, used, es);
    used := AssignByIndex(Candidate, results, ix, nearDays, used, es);
    assert BoardOf(results, used) == MatchByScan(lines, es, nearDays);
    unmatched := LeftoverIds(es, used);
  }

  method OpenResults(lines: seq<CardLine>) returns (results: seq<MatchResult>)
    ensures fresh(results) && Distinct(results) && LinesOf(results) == lines
    ensures forall i :: 0 <= i < |results| ==> results[i].View() == OPEN
  {
    results := [];
    var i := 0;
    while i < |lines|
      invariant 0 <= i <= |lines| && |results| == i
      invariant fresh(results) && Distinct(results)
      invariant forall k :: 0 <= k < i ==> results[k].line == lines[k] && results[k].View() == OPEN
    {
      var res := new MatchResult(lines[i]);
      results := results + [res];
      i := i + 1;
    }
  }

  method LeftoverIds(es: seq<ExpenseKey>, used: set<int>) returns (ids: seq<int>)
    ensures ids == Leftover(es, used)
  {
    ids := [];
    var n := 0;
    while n < |es|
      invariant 0 <= n <= |es|
      invariant ids == Leftover(es[..n], used)
    {
      assert es[..n + 1][..n] == es[..n];
      if es[n].id !in used {
        ids := ids + [es[n].id];
      }
      n := n + 1;
    }
    assert es[..n] == es;
  }

  // ---------------------------------------------------------------- the upload's tally

  /** How many verdicts carry a status. */
  function Tally(vs: seq<Verdict>, status: MatchStatus): nat {
    if vs == [] then 0 else Tally(vs[..|vs| - 1], status) + if vs[|vs| - 1].status == status then 1 else 0
  }

  function PlacesOf(vs: seq<Verdict>, status: MatchStatus): set<nat> {
    set i: nat | i < |vs| && vs[i].status == status
  }

  lemma PlacesGrow(vs: seq<Verdict>, v: Verdict, status: MatchStatus)
    ensures PlacesOf(vs + [v], status) == PlacesOf(vs, status) + if v.status == status then {|vs|} else {}
  {
  }

  /** A counter is the number of lines with its status. */
  lemma {:induction false} TallyIsSize(vs: seq<Verdict>, status: MatchStatus)
    ensures Tally(vs, status) == |PlacesOf(vs, status)|
  {
    if vs != [] {
      var n := |vs| - 1;
      TallyIsSize(vs[..n], status);
      PlacesGrow(vs[..n], vs[n], status);
      assert vs[..n] + [vs[n]] == vs;
    }
  }

  /** The four counters stored with an upload; they account for every line. */
  method CountStatuses(results: seq<MatchResult>) returns (counts: map<MatchStatus, nat>)
    ensures counts.Keys == {Matched, MatchedNear, Candidate, Unmatched}
    ensures forall s :: s in counts ==> counts[s] == Tally(VerdictsOf(results), s)
    ensures counts[Matched] + counts[MatchedNear] + counts[Candidate] + counts[Unmatched] == |results|
  {
    ghost var vs := VerdictsOf(results);
    counts := map[Matched := 0, MatchedNear := 0, Candidate := 0, Unmatched := 0];
    var i := 0;
    while i < |results|
      invariant 0 <= i <= |results|
      invariant counts.Keys == {Matched, MatchedNear, Candidate, Unmatched}
      invariant forall s :: s in counts ==> counts[s] == Tally(vs[..i], s)
      invariant counts[Matched] + counts[MatchedNear] + counts[Candidate] + counts[Unmatched] == i
    {
      assert vs[..i + 1][..i] == vs[..i];
      var status := results[i].status;
      assert status.Matched? || status.MatchedNear? || status.Candidate? || status.Unmatched?;
      counts := counts[status := counts[status] + 1];
      i := i + 1;
    }
    assert vs[..i] == vs;
  }

  function Decided(vs: seq<Verdict>): set<nat> {
    set i: nat | i < |vs| && vs[i].status != Unmatched
  }

  /** The unmatched counter and the decided lines account for every line. */
  lemma {:induction false} TallyCountsDecided(vs: seq<Verdict>)
    ensures Tally(vs, Unmatched) + |Decided(vs)| == |vs|
  {
    if vs == [] {
      assert Decided(vs) == {};
    } else {
      var rest := vs[..|vs| - 1];
      TallyCountsDecided(rest);
      assert Decided(vs) == if vs[|vs| - 1].status != Unmatched then Decided(rest) + {|vs| - 1} else Decided(rest);
    }
  }

  // ---------------------------------------------------------------- the row loop of the statement parser

  /** The cells of a data row: None where a date or an amount is absent or cannot be read. */
  datatype Row = Row(approvedOn: Option<int>, merchant: string, rawBizNo: Option<string>, amount: Option<int>)

  function Digits(raw: string): (d: string)
    ensures forall i :: 0 <= i < |d| ==> '0' <= d[i] <= '9'
  {
    if raw == [] then []
    else
      var c := raw[|raw| - 1];
      if '0' <= c <= '9' then Digits(raw[..|raw| - 1]) + [c] else Digits(raw[..|raw| - 1])
  }

  /** Ten digits or nothing. */
  function NormalizeBizNo(raw: Option<string>): (b: Option<string>)
    ensures b.Some? ==> |b.value| == 10 && forall i :: 0 <= i < 10 ==> '0' <= b.value[i] <= '9'
  {
    if raw.None? then None
    else
      var d := Digits(raw.value);
      if |d| == 10 then Some(d) else None
  }

  lemma DigitsOneMore(s: string, c: char)
    ensures Digits(s + [c]) == if '0' <= c <= '9' then Digits(s) + [c] else Digits(s)
  {
    assert (s + [c])[..|s|] == s;
  }

  /** A character that is no digit makes no difference, wherever it stands. */
  lemma {:induction false} SeparatorSkipped(a: string, c: char, b: string)
    requires !('0' <= c <= '9')
    ensures Digits(a + [c] + b) == Digits(a + b)
    decreases |b|
  {
    if b == [] {
      DigitsOneMore(a, c);
      assert a + [c] + b == a + [c] && a + b == a;
    } else {
      SeparatorSkipped(a, c, b[..|b| - 1]);
      SameTail(a + [c] + b[..|b| - 1], a + b[..|b| - 1], b[|b| - 1], a + [c] + b, a + b);
    }
  }

  lemma SameTail(x: string, y: string, c: char, xc: string, yc: string)
    requires Digits(x) == Digits(y) && xc == x + [c] && yc == y + [c]
    ensures Digits(xc) == Digits(yc)
  {
    DigitsOneMore(x, c);
    DigitsOneMore(y, c);
  }

  lemma {:induction false} DigitsOfDigits(d: string)
    requires forall i :: 0 <= i < |d| ==> '0' <= d[i] <= '9'
    ensures Digits(d) == d
  {
    if d != [] {
      DigitsOfDigits(d[..|d| - 1]);
    }
  }

  /** Which characters are kept: exactly the digits, in their order. */
  lemma {:induction false} DigitsInFull(raw: string) returns (at: seq<nat>)
    ensures |at| == |Digits(raw)| && forall k :: 0 <= k < |at| ==> at[k] < |raw| && Digits(raw)[k] == raw[at[k]]
    ensures forall j, k :: 0 <= j < k < |at| ==> at[j] < at[k]
    ensures forall i: nat :: i < |raw| ==> (i in at <==> '0' <= raw[i] <= '9')
  {
    if raw == [] {
      at := [];
    } else {
      var n := |raw| - 1;
      at := DigitsInFull(raw[..n]);
      if '0' <= raw[n] <= '9' {
        at := at + [n];
      }
    }
  }

  /** A typed number with exactly ten digits becomes those digits in their order, any other text nothing. */
  lemma NormalFormInFull(raw: string) returns (at: seq<nat>)
    ensures forall j, k :: 0 <= j < k < |at| ==> at[j] < at[k]
    ensures forall i: nat :: i < |raw| ==> (i in at <==> '0' <= raw[i] <= '9')
    ensures forall i :: i in at ==> i < |raw|
    ensures NormalizeBizNo(Some(raw)).Some? <==> |at| == 10
    ensures |at| == 10 ==> |NormalizeBizNo(Some(raw)).value| == 10
    ensures |at| == 10 ==> forall k :: 0 <= k < 10 ==> at[k] < |raw| && NormalizeBizNo(Some(raw)).value[k] == raw[at[k]]
  {
    at := DigitsInFull(raw);
  }

  /** A separator anywhere in a typed number makes no difference to its normal form. */
  lemma SeparatorsDoNotMatter(a: string, c: char, b: string)
    requires !('0' <= c <= '9')
    ensures NormalizeBizNo(Some(a + [c] + b)) == NormalizeBizNo(Some(a + b))
  {
    SeparatorSkipped(a, c, b);
  }

  /** A normalized number is its own normal form. */
  lemma NormalFormIsStable(raw: Option<string>)
    ensures NormalizeBizNo(NormalizeBizNo(raw)) == NormalizeBizNo(raw)
  {
    if raw.Some? {
      DigitsOfDigits(Digits(raw.value));
    }
  }

  predicate Readable(r: Row) {
    r.approvedOn.Some? && r.amount.Some? && r.amount.value > 0 && r.merchant != ""
  }

  function LineOf(r: Row, rowNo: int): CardLine
    requires Readable(r)
  {
    CardLine(rowNo, r.approvedOn.value, NormalizeBizNo(r.rawBizNo), r.amount.value)
  }

  /** Readable rows become lines numbered by their position from 1. */
  function ParsedLines(rows: seq<Row>): seq<CardLine> {
    if rows == [] then []
    else
      var rest := ParsedLines(rows[..|rows| - 1]);
      if Readable(rows[|rows| - 1]) then rest + [LineOf(rows[|rows| - 1], |rows|)] else rest
  }

  /** Every other row is reported by its number. */
  function SkippedRows(rows: seq<Row>): seq<int> {
    if rows == [] then []
    else
      var rest := SkippedRows(rows[..|rows| - 1]);
      if Readable(rows[|rows| - 1]) then rest else rest + [|rows|]
  }

  method ParseRows(rows: seq<Row>) returns (lines: seq<CardLine>, errors: seq<int>)
    ensures lines == ParsedLines(rows) && errors == SkippedRows(rows)
  {
    lines, errors := [], [];
    var i := 0;
    while i < |rows|
      invariant 0 <= i <= |rows|
      invariant lines == ParsedLines(rows[..i]) && errors == SkippedRows(rows[..i])
    {
      assert rows[..i + 1][..i] == rows[..i];
      if Readable(rows[i]) {
        lines := lines + [LineOf(rows[i], i + 1)];
      } else {
        errors := errors + [i + 1];
      }
      i := i + 1;
    }
    assert rows[..i] == rows;
  }

  /**
   What the matcher may rely on: row numbers increase and name the row they come from, every row
   is either a line or reported, amounts are positive, and a business number is absent or ten digits.
   */
  lemma {:induction false} ParsedLinesAreSound(rows: seq<Row>)
    ensures DistinctRows(ParsedLines(rows)) && |ParsedLines(rows)| + |SkippedRows(rows)| == |rows|
    ensures forall j, k :: 0 <= j < k < |ParsedLines(rows)| ==> ParsedLines(rows)[j].rowNo < ParsedLines(rows)[k].rowNo
    ensures forall k :: 0 <= k < |ParsedLines(rows)| ==> LineFits(ParsedLines(rows)[k], rows)
    ensures forall k :: 0 <= k < |SkippedRows(rows)| ==> SkipFits(SkippedRows(rows)[k], rows)
  {
    if rows != [] {
      ParsedLinesAreSound(rows[..|rows| - 1]);
      forall k | 0 <= k < |ParsedLines(rows[..|rows| - 1])| ensures LineFits(ParsedLines(rows)[k], rows) {
        assert LineFits(ParsedLines(rows[..|rows| - 1])[k], rows[..|rows| - 1]);
      }
      forall k | 0 <= k < |SkippedRows(rows[..|rows| - 1])| ensures SkipFits(SkippedRows(rows)[k], rows) {
        assert SkipFits(SkippedRows(rows[..|rows| - 1])[k], rows[..|rows| - 1]);
      }
    }
  }

  /** The number is that of a row without a day, a positive amount or a merchant. */
  predicate SkipFits(rowNo: int, rows: seq<Row>) {
    && 1 <= rowNo <= |rows|
    && var row := rows[rowNo - 1];
       row.approvedOn.None? || row.amount.None? || row.amount.value <= 0 || row.merchant == ""
  }

  /** The line carries the day and the positive amount of the row it names, and a number of ten digits or none. */
  predicate LineFits(ln: CardLine, rows: seq<Row>) {
    && 1 <= ln.rowNo <= |rows|
    && var row := rows[ln.rowNo - 1];
       && row.approvedOn == Some(ln.approvedOn) && row.amount == Some(ln.amount) && ln.amount > 0 && row.merchant != ""
       && ln.bizNo == NormalizeBizNo(row.rawBizNo) && (ln.bizNo.Some? ==> |ln.bizNo.value| == 10)
  }
}
