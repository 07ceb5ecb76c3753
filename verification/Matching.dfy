/**
 The card reconciliation matcher as a function: three greedy tiers, each of which lists
 every admissible (line, expense) pair by a plain scan, sorts the list stably by
 (gap, row number) and settles it from the front.
 */
module Matching {
  import opened Common

  datatype CardLine = CardLine(rowNo: int, approvedOn: int, bizNo: Option<string>, amount: int)

  datatype ExpenseKey = ExpenseKey(id: int, spentAt: int, bizNo: Option<string>, amount: int)

  datatype MatchStatus = Matched | MatchedNear | Candidate | Unmatched

  datatype Note = DaysApart(days: nat) | NumberMissing

  datatype Verdict = Verdict(status: MatchStatus, expenseId: Option<int>, note: Option<Note>)

  const OPEN := Verdict(Unmatched, None, None)

  /** The verdict of every line, by position, and the expense ids already given away. */
  datatype Board = Board(verdicts: seq<Verdict>, used: set<int>)

  /** An entry of the `pending` list. */
  datatype Offer = Offer(gap: nat, rowNo: int, at: nat, exp: ExpenseKey)

  // ---------------------------------------------------------------- which pairs a tier admits

  /** The tier's own condition on a pair, free of any index. */
  predicate Compatible(tier: MatchStatus, nearDays: int, ln: CardLine, e: ExpenseKey) {
    match tier
    case Matched => Truthy(ln.bizNo) && e.bizNo == ln.bizNo && e.amount == ln.amount && e.spentAt == ln.approvedOn
    case MatchedNear => Truthy(ln.bizNo) && e.bizNo == ln.bizNo && e.amount == ln.amount
        && Gap(ln.approvedOn, e.spentAt) <= nearDays
    case Candidate => e.amount == ln.amount && e.spentAt == ln.approvedOn && (ln.bizNo.None? || e.bizNo.None?)
    case Unmatched => false
  }

  /** Scan of all expenses in input order. */
  function Compatibles(tier: MatchStatus, nearDays: int, ln: CardLine, es: seq<ExpenseKey>): seq<ExpenseKey> {
    if es == [] then []
    else
      var rest := Compatibles(tier, nearDays, ln, es[..|es| - 1]);
      var e := es[|es| - 1];
      if Compatible(tier, nearDays, ln, e) then rest + [e] else rest
  }

  lemma CompatiblesHas(tier: MatchStatus, nearDays: int, ln: CardLine, es: seq<ExpenseKey>, e: ExpenseKey)
    ensures e in Compatibles(tier, nearDays, ln, es) <==> e in es && Compatible(tier, nearDays, ln, e)
  {
  }

  /** What the tier's candidate list is for each line. */
  function Candidates(tier: MatchStatus, nearDays: int, lines: seq<CardLine>,
        es: seq<ExpenseKey>): (c: seq<seq<ExpenseKey>>)
    ensures |c| == |lines|
  {
    seq(|lines|, i requires 0 <= i < |lines| => Compatibles(tier, nearDays, lines[i], es))
  }

  // ---------------------------------------------------------------- the pending list

  /** The offers one line makes: its candidates that nobody has used. */
  function OffersOf(cands: seq<ExpenseKey>, ln: CardLine, at: nat, used: set<int>): seq<Offer> {
    if cands == [] then []
    else
      var rest := OffersOf(cands[..|cands| - 1], ln, at, used);
      var e := cands[|cands| - 1];
      if e.id in used then rest else rest + [Offer(Gap(ln.approvedOn, e.spentAt), ln.rowNo, at, e)]
  }

  /** The offers of the first n lines; a line that already has a verdict makes none. */
  function Pending(cands: seq<seq<ExpenseKey>>, lines: seq<CardLine>, b: Board, n: nat): seq<Offer>
    requires n <= |lines| == |cands| == |b.verdicts|
  {
    if n == 0 then []
    else
      Pending(cands, lines, b, n - 1) +
      if b.verdicts[n - 1].status != Unmatched then []
      else OffersOf(cands[n - 1], lines[n - 1], n - 1, b.used)
  }

  lemma OffersOfHas(cands: seq<ExpenseKey>, ln: CardLine, at: nat, used: set<int>, o: Offer)
    ensures o in OffersOf(cands, ln, at, used) <==>
            o.exp in cands && o.exp.id !in used && o == Offer(Gap(ln.approvedOn, o.exp.spentAt), ln.rowNo, at, o.exp)
  {
  }

  /** An offer that belongs on the pending list of the first n lines. */
  predicate Admissible(cands: seq<seq<ExpenseKey>>, lines: seq<CardLine>, b: Board, n: nat, o: Offer)
    requires n <= |lines| == |cands| == |b.verdicts|
  {
    && o.at < n
    && b.verdicts[o.at].status == Unmatched
    && o.exp in cands[o.at]
    && o.exp.id !in b.used
    && o.gap == Gap(lines[o.at].approvedOn, o.exp.spentAt)
    && o.rowNo == lines[o.at].rowNo
  }

  lemma PendingHas(cands: seq<seq<ExpenseKey>>, lines: seq<CardLine>, b: Board, n: nat, o: Offer)
    requires n <= |lines| == |cands| == |b.verdicts|
    ensures o in Pending(cands, lines, b, n) <==> Admissible(cands, lines, b, n, o)
  {
    if n > 0 {
      PendingHas(cands, lines, b, n - 1, o);
      OffersOfHas(cands[n - 1], lines[n - 1], n - 1, b.used, o);
    }
  }

  // ---------------------------------------------------------------- the stable sort on (gap, row_no)

  predicate KeyLess(a: Offer, b: Offer) {
    a.gap < b.gap || (a.gap == b.gap && a.rowNo < b.rowNo)
  }

  predicate SameKey(a: Offer, b: Offer) {
    a.gap == b.gap && a.rowNo == b.rowNo
  }

  function Insert(o: Offer, q: seq<Offer>): seq<Offer> {
    if q == [] || !KeyLess(q[0], o) then [o] + q else [q[0]] + Insert(o, q[1..])
  }

  function StableSort(q: seq<Offer>): (r: seq<Offer>)
    ensures multiset(r) == multiset(q)
  {
    if q == [] then []
    else
      SortHasSameElements(q[0], StableSort(q[1..]));
      assert q == [q[0]] + q[1..];
      Insert(q[0], StableSort(q[1..]))
  }

  lemma SortHasSameElements(o: Offer, q: seq<Offer>)
    ensures multiset(Insert(o, q)) == multiset([o] + q)
  {
    if q != [] && KeyLess(q[0], o) {
      SortHasSameElements(o, q[1..]);
      assert q == [q[0]] + q[1..];
    }
  }

  predicate Sorted(q: seq<Offer>) {
    forall i, j :: 0 <= i < j < |q| ==> !KeyLess(q[j], q[i])
  }

  /** The entries that share a key with k, in order. */
  function WithKey(q: seq<Offer>, k: Offer): seq<Offer> {
    if q == [] then []
    else (if SameKey(q[0], k) then [q[0]] else []) + WithKey(q[1..], k)
  }

  lemma InsertKeepsOrder(o: Offer, q: seq<Offer>)
    requires Sorted(q)
    ensures Sorted(Insert(o, q))
  {
    if q != [] && KeyLess(q[0], o) {
      InsertKeepsOrder(o, q[1..]);
      SortHasSameElements(o, q[1..]);
      var r := Insert(o, q[1..]);
      forall j | 0 <= j < |r| ensures !KeyLess(r[j], q[0]) {
        assert r[j] in multiset(r);
        assert r[j] in multiset([o] + q[1..]);
        assert r[j] in [o] + q[1..];
      }
    }
  }

  lemma InsertIsStable(o: Offer, q: seq<Offer>, k: Offer)
    ensures WithKey(Insert(o, q), k) == (if SameKey(o, k) then [o] else []) + WithKey(q, k)
  {
  }

  /** The result is in key order and equal keys keep the order they came in. */
  lemma {:induction false} StableSortSorts(q: seq<Offer>, k: Offer)
    ensures Sorted(StableSort(q))
    ensures WithKey(StableSort(q), k) == WithKey(q, k)
  {
    if q != [] {
      StableSortSorts(q[1..], k);
      InsertKeepsOrder(q[0], StableSort(q[1..]));
      InsertIsStable(q[0], StableSort(q[1..]), k);
    }
  }

  // ---------------------------------------------------------------- settling the list

  /** One turn of the settling loop. */
  function Settle(tier: MatchStatus, b: Board, o: Offer): (r: Board)
    requires o.at < |b.verdicts|
    ensures |r.verdicts| == |b.verdicts|
  {
    if b.verdicts[o.at].status != Unmatched || o.exp.id in b.used then b
    else Board(b.verdicts[o.at := Verdict(tier, Some(o.exp.id), NoteFor(tier, o.gap))], b.used + {o.exp.id})
  }

  function NoteFor(tier: MatchStatus, gap: nat): Option<Note> {
    match tier
    case MatchedNear => Some(DaysApart(gap))
    case Candidate => Some(NumberMissing)
    case _ => None
  }

  predicate InRange(q: seq<Offer>, n: nat) {
    forall k :: 0 <= k < |q| ==> q[k].at < n
  }

  function Greedy(tier: MatchStatus, q: seq<Offer>, b: Board): (r: Board)
    requires InRange(q, |b.verdicts|)
    ensures |r.verdicts| == |b.verdicts|
  {
    if q == [] then b else Settle(tier, Greedy(tier, q[..|q| - 1], b), q[|q| - 1])
  }

  /** The sorted work list of a tier. */
  function Queue(cands: seq<seq<ExpenseKey>>, lines: seq<CardLine>, b: Board): (q: seq<Offer>)
    requires |lines| == |cands| == |b.verdicts|
    ensures InRange(q, |b.verdicts|)
  {
    var p := Pending(cands, lines, b, |lines|);
    var q := StableSort(p);
    assert InRange(q, |b.verdicts|) by {
      forall k | 0 <= k < |q| ensures q[k].at < |b.verdicts| {
        assert q[k] in multiset(q);
        assert q[k] in p;
        PendingHas(cands, lines, b, |lines|, q[k]);
      }
    }
    q
  }

  lemma QueueHas(cands: seq<seq<ExpenseKey>>, lines: seq<CardLine>, b: Board, o: Offer)
    requires |lines| == |cands| == |b.verdicts|
    ensures o in Queue(cands, lines, b) <==> Admissible(cands, lines, b, |lines|, o)
  {
    var p := Pending(cands, lines, b, |lines|);
    assert o in StableSort(p) <==> o in multiset(StableSort(p));
    assert o in p <==> o in multiset(p);
    PendingHas(cands, lines, b, |lines|, o);
  }

  function RunTier(tier: MatchStatus, cands: seq<seq<ExpenseKey>>, lines: seq<CardLine>, b: Board): (r: Board)
    requires |lines| == |cands| == |b.verdicts|
    ensures |r.verdicts| == |b.verdicts|
  {
    Greedy(tier, Queue(cands, lines, b), b)
  }

  function TierByScan(tier: MatchStatus, nearDays: int, lines: seq<CardLine>, es: seq<ExpenseKey>, b: Board): (r: Board)
    requires |lines| == |b.verdicts|
    ensures |r.verdicts| == |b.verdicts|
  {
    RunTier(tier, Candidates(tier, nearDays, lines, es), lines, b)
  }

  function StartBoard(lines: seq<CardLine>): (b: Board)
    ensures |b.verdicts| == |lines|
  {
    Board(seq(|lines|, i => OPEN), {})
  }

  function AfterExact(lines: seq<CardLine>, es: seq<ExpenseKey>, nearDays: int): (b: Board)
    ensures |b.verdicts| == |lines|
  {
    TierByScan(Matched, nearDays, lines, es, StartBoard(lines))
  }

  function AfterNear(lines: seq<CardLine>, es: seq<ExpenseKey>, nearDays: int): (b: Board)
    ensures |b.verdicts| == |lines|
  {
    TierByScan(MatchedNear, nearDays, lines, es, AfterExact(lines, es, nearDays))
  }

  /** The whole matcher. */
  function MatchByScan(lines: seq<CardLine>, es: seq<ExpenseKey>, nearDays: int): (b: Board)
    ensures |b.verdicts| == |lines|
  {
    TierByScan(Candidate, nearDays, lines, es, AfterNear(lines, es, nearDays))
  }

  /** Ids of the expenses no line got, in input order. */
  function Leftover(es: seq<ExpenseKey>, used: set<int>): seq<int> {
    if es == [] then []
    else
      var rest := Leftover(es[..|es| - 1], used);
      if es[|es| - 1].id in used then rest else rest + [es[|es| - 1].id]
  }

  // ---------------------------------------------------------------- assumptions on the input

  predicate DistinctIds(es: seq<ExpenseKey>) {
    forall i, j :: 0 <= i < j < |es| ==> es[i].id != es[j].id
  }

  predicate DistinctRows(lines: seq<CardLine>) {
    forall i, j :: 0 <= i < j < |lines| ==> lines[i].rowNo != lines[j].rowNo
  }
}
