/** The verdict of a row does not depend on where the row stands in the statement. */
module MatcherOrder {
  import opened Common
  import opened Matching

  // ---------------------------------------------------------------- a stable sort is determined by its keys

  lemma {:induction false} WithKeyConcat(a: seq<Offer>, b: seq<Offer>, k: Offer)
    ensures WithKey(a + b, k) == WithKey(a, k) + WithKey(b, k)
  {
    if a == [] {
      assert a + b == b;
    } else {
      WithKeyConcat(a[1..], b, k);
      WithKeyStep(a + b, a[0], a[1..] + b, k);
      WithKeyStep(a, a[0], a[1..], k);
    }
  }

  lemma WithKeyStep(q: seq<Offer>, o: Offer, rest: seq<Offer>, k: Offer)
    requires q == [o] + rest
    ensures WithKey(q, k) == if SameKey(o, k) then [o] + WithKey(rest, k) else WithKey(rest, k)
  {
    assert q[1..] == rest;
  }

  lemma WithKeySource(a: seq<Offer>, k: Offer)
    requires WithKey(a, k) != []
    ensures exists x :: x in a && SameKey(x, k)
  {
  }

  lemma WithKeyTail(a: seq<Offer>, k: Offer)
    requires a != []
    ensures SameKey(a[0], k) ==> WithKey(a, k) != [] && WithKey(a[1..], k) == WithKey(a, k)[1..]
    ensures !SameKey(a[0], k) ==> WithKey(a[1..], k) == WithKey(a, k)
  {
  }

  lemma OwnKey(a: seq<Offer>)
    requires a != []
    ensures WithKey(a, a[0]) != [] && WithKey(a, a[0])[0] == a[0]
  {
  }

  /** Two sorted lists that agree key by key are the same list. */
  lemma {:induction false} SortedAndAgreeing(a: seq<Offer>, b: seq<Offer>)
    requires Sorted(a) && Sorted(b)
    requires forall k :: WithKey(a, k) == WithKey(b, k)
    ensures a == b
  {
    if a == [] {
      if b != [] {
        OwnKey(b);
      }
    } else {
      assert WithKey(a, a[0]) == WithKey(b, a[0]);
      WithKeySource(b, a[0]);
      assert WithKey(b, b[0]) == WithKey(a, b[0]);
      WithKeySource(a, b[0]);
      assert SameKey(a[0], b[0]);
      assert a[0] == WithKey(a, a[0])[0] == b[0];
      forall k ensures WithKey(a[1..], k) == WithKey(b[1..], k) {
        assert WithKey(a, k) == WithKey(b, k);
        WithKeyTail(a, k);
        WithKeyTail(b, k);
      }
      SortedAndAgreeing(a[1..], b[1..]);
    }
  }

  // ---------------------------------------------------------------- forgetting positions

  function Strip(q: seq<Offer>): (r: seq<Offer>)
    ensures |r| == |q| && forall k :: 0 <= k < |q| ==> r[k] == q[k].(at := 0)
  {
    seq(|q|, k requires 0 <= k < |q| => q[k].(at := 0))
  }

  lemma StripWithKey(q: seq<Offer>, k: Offer)
    ensures WithKey(Strip(q), k) == Strip(WithKey(q, k))
  {
    if q != [] {
      StripWithKey(q[1..], k);
      assert Strip(q)[1..] == Strip(q[1..]);
      assert Strip(q)[0] == q[0].(at := 0);
    }
  }

  lemma StripOffers(cands: seq<ExpenseKey>, ln: CardLine, at: nat, used: set<int>)
    ensures Strip(OffersOf(cands, ln, at, used)) == OffersOf(cands, ln, 0, used)
  {
  }

  // ---------------------------------------------------------------- the pending list, key by key

  lemma OffersHaveTheRow(cands: seq<ExpenseKey>, ln: CardLine, at: nat, used: set<int>, k: Offer)
    requires k.rowNo != ln.rowNo
    ensures WithKey(OffersOf(cands, ln, at, used), k) == []
  {
    if WithKey(OffersOf(cands, ln, at, used), k) != [] {
      WithKeySource(OffersOf(cands, ln, at, used), k);
      var x :| x in OffersOf(cands, ln, at, used) && SameKey(x, k);
      OffersOfHas(cands, ln, at, used, x);
    }
  }

  /** The entries line i puts into the pending list. */
  function BlockOf(cands: seq<ExpenseKey>, ln: CardLine, v: Verdict, i: nat, used: set<int>): seq<Offer> {
    if v.status != Unmatched then [] else OffersOf(cands, ln, i, used)
  }

  lemma PendingStep(cands: seq<seq<ExpenseKey>>, lines: seq<CardLine>, b: Board, n: nat, k: Offer)
    requires 0 < n <= |lines| == |cands| == |b.verdicts|
    ensures WithKey(Pending(cands, lines, b, n), k) ==
            WithKey(Pending(cands, lines, b, n - 1), k)
              + WithKey(BlockOf(cands[n - 1], lines[n - 1], b.verdicts[n - 1], n - 1, b.used), k)
  {
    var block := BlockOf(cands[n - 1], lines[n - 1], b.verdicts[n - 1], n - 1, b.used);
    assert Pending(cands, lines, b, n) == Pending(cands, lines, b, n - 1) + block;
    WithKeyConcat(Pending(cands, lines, b, n - 1), block, k);
  }

  lemma OtherBlock(cands: seq<ExpenseKey>, ln: CardLine, v: Verdict, i: nat, used: set<int>, k: Offer)
    requires k.rowNo != ln.rowNo
    ensures WithKey(BlockOf(cands, ln, v, i, used), k) == []
  {
    OffersHaveTheRow(cands, ln, i, used, k);
  }

  lemma {:induction false} PendingWithoutKey(cands: seq<seq<ExpenseKey>>, lines: seq<CardLine>, b: Board, n: nat,
        k: Offer)
    requires n <= |lines| == |cands| == |b.verdicts|
    requires forall i :: 0 <= i < n ==> lines[i].rowNo != k.rowNo
    ensures WithKey(Pending(cands, lines, b, n), k) == []
  {
    if n > 0 {
      PendingWithoutKey(cands, lines, b, n - 1, k);
      PendingStep(cands, lines, b, n, k);
      OtherBlock(cands[n - 1], lines[n - 1], b.verdicts[n - 1], n - 1, b.used, k);
    }
  }

  /** The offers with a key all come from the one line that has its row number. */
  lemma {:induction false} PendingWithKey(cands: seq<seq<ExpenseKey>>, lines: seq<CardLine>, b: Board, n: nat, i: nat,
        k: Offer)
    requires i < n <= |lines| == |cands| == |b.verdicts| && DistinctRows(lines) && lines[i].rowNo == k.rowNo
    ensures WithKey(Pending(cands, lines, b, n), k) == WithKey(BlockOf(cands[i], lines[i], b.verdicts[i], i, b.used), k)
  {
    PendingStep(cands, lines, b, n, k);
    if i == n - 1 {
      PendingWithoutKey(cands, lines, b, i, k);
    } else {
      PendingWithKey(cands, lines, b, n - 1, i, k);
      OtherBlock(cands[n - 1], lines[n - 1], b.verdicts[n - 1], n - 1, b.used, k);
    }
  }

  // ---------------------------------------------------------------- two arrangements of one statement

  /** The same rows, possibly in another order. */
  ghost predicate Rearranged(lines: seq<CardLine>, lines2: seq<CardLine>) {
    && DistinctRows(lines) && DistinctRows(lines2)
    && (forall i :: 0 <= i < |lines| ==> exists j :: 0 <= j < |lines2| && lines2[j] == lines[i])
    && (forall j :: 0 <= j < |lines2| ==> exists i :: 0 <= i < |lines| && lines[i] == lines2[j])
  }

  /** The same verdict for the same row, the same ids used. */
  predicate SameByRow(lines: seq<CardLine>, b: Board, lines2: seq<CardLine>, b2: Board) {
    && |lines| == |b.verdicts| && |lines2| == |b2.verdicts| && b.used == b2.used
    && forall i, j :: 0 <= i < |lines| && 0 <= j < |lines2| && lines[i].rowNo == lines2[j].rowNo ==>
        b.verdicts[i] == b2.verdicts[j]
  }

  /** Every entry names the line whose row number it carries. */
  predicate RowsFit(q: seq<Offer>, lines: seq<CardLine>) {
    forall k :: 0 <= k < |q| ==> q[k].at < |lines| && lines[q[k].at].rowNo == q[k].rowNo
  }

  lemma QueueRowsFit(cands: seq<seq<ExpenseKey>>, lines: seq<CardLine>, b: Board)
    requires |lines| == |cands| == |b.verdicts|
    ensures RowsFit(Queue(cands, lines, b), lines)
  {
    var q := Queue(cands, lines, b);
    forall k | 0 <= k < |q| ensures q[k].at < |lines| && lines[q[k].at].rowNo == q[k].rowNo {
      QueueHas(cands, lines, b, q[k]);
    }
  }

  lemma SortedQueue(cands: seq<seq<ExpenseKey>>, lines: seq<CardLine>, b: Board, k: Offer)
    requires |lines| == |cands| == |b.verdicts|
    ensures Sorted(Strip(Queue(cands, lines, b)))
    ensures WithKey(Strip(Queue(cands, lines, b)), k) == Strip(WithKey(Pending(cands, lines, b, |lines|), k))
  {
    StableSortSorts(Pending(cands, lines, b, |lines|), k);
    StripWithKey(Queue(cands, lines, b), k);
  }

  /** The offers of one row, without their position, depend on the line, its verdict and the used ids alone. */
  lemma OffersOfRow(tier: MatchStatus, nearDays: int, es: seq<ExpenseKey>, lines: seq<CardLine>, b: Board, i: nat,
        k: Offer)
    requires DistinctRows(lines) && i < |lines| == |b.verdicts| && lines[i].rowNo == k.rowNo
    ensures Strip(WithKey(Pending(Candidates(tier, nearDays, lines, es), lines, b, |lines|), k)) ==
            if b.verdicts[i].status == Unmatched
            then WithKey(OffersOf(Compatibles(tier, nearDays, lines[i], es), lines[i], 0, b.used), k) else []
  {
    var c := Candidates(tier, nearDays, lines, es);
    PendingWithKey(c, lines, b, |lines|, i, k);
    StripWithKey(OffersOf(c[i], lines[i], i, b.used), k);
    StripOffers(c[i], lines[i], i, b.used);
  }

  lemma PresentRowOffers(tier: MatchStatus, nearDays: int, es: seq<ExpenseKey>, lines: seq<CardLine>, b: Board, i: nat,
        lines2: seq<CardLine>, b2: Board, j: nat, k: Offer)
    requires Rearranged(lines, lines2) && SameByRow(lines, b, lines2, b2)
    requires i < |lines| && j < |lines2| && lines[i].rowNo == k.rowNo && lines2[j] == lines[i]
    ensures Strip(WithKey(Pending(Candidates(tier, nearDays, lines, es), lines, b, |lines|), k)) ==
            Strip(WithKey(Pending(Candidates(tier, nearDays, lines2, es), lines2, b2, |lines2|), k))
  {
    OffersOfRow(tier, nearDays, es, lines, b, i, k);
    OffersOfRow(tier, nearDays, es, lines2, b2, j, k);
  }

  lemma AbsentRowOffers(tier: MatchStatus, nearDays: int, es: seq<ExpenseKey>, lines: seq<CardLine>, b: Board, k: Offer)
    requires |lines| == |b.verdicts| && forall i :: 0 <= i < |lines| ==> lines[i].rowNo != k.rowNo
    ensures WithKey(Pending(Candidates(tier, nearDays, lines, es), lines, b, |lines|), k) == []
  {
    PendingWithoutKey(Candidates(tier, nearDays, lines, es), lines, b, |lines|, k);
  }

  lemma RowHasSameOffers(tier: MatchStatus, nearDays: int, es: seq<ExpenseKey>, lines: seq<CardLine>, b: Board,
        lines2: seq<CardLine>, b2: Board, k: Offer)
    requires Rearranged(lines, lines2) && SameByRow(lines, b, lines2, b2)
    ensures Strip(WithKey(Pending(Candidates(tier, nearDays, lines, es), lines, b, |lines|), k)) ==
            Strip(WithKey(Pending(Candidates(tier, nearDays, lines2, es), lines2, b2, |lines2|), k))
  {
    if i :| 0 <= i < |lines| && lines[i].rowNo == k.rowNo {
      var j :| 0 <= j < |lines2| && lines2[j] == lines[i];
      PresentRowOffers(tier, nearDays, es, lines, b, i, lines2, b2, j, k);
    } else {
      AbsentRowOffers(tier, nearDays, es, lines, b, k);
      AbsentRowOffers(tier, nearDays, es, lines2, b2, k);
    }
  }

  lemma SameQueue(tier: MatchStatus, nearDays: int, es: seq<ExpenseKey>, lines: seq<CardLine>, b: Board,
        lines2: seq<CardLine>, b2: Board)
    requires Rearranged(lines, lines2) && SameByRow(lines, b, lines2, b2)
    ensures Strip(Queue(Candidates(tier, nearDays, lines, es), lines, b)) ==
            Strip(Queue(Candidates(tier, nearDays, lines2, es), lines2, b2))
  {
    var c, c2 := Candidates(tier, nearDays, lines, es), Candidates(tier, nearDays, lines2, es);
    var s, s2 := Strip(Queue(c, lines, b)), Strip(Queue(c2, lines2, b2));
    forall k ensures WithKey(s, k) == WithKey(s2, k) {
      SortedQueue(c, lines, b, k);
      SortedQueue(c2, lines2, b2, k);
      RowHasSameOffers(tier, nearDays, es, lines, b, lines2, b2, k);
    }
    SortedQueue(c, lines, b, Offer(0, 0, 0, ExpenseKey(0, 0, None, 0)));
    SortedQueue(c2, lines2, b2, Offer(0, 0, 0, ExpenseKey(0, 0, None, 0)));
    SortedAndAgreeing(s, s2);
  }

  lemma {:induction false} GreedySameByRow(tier: MatchStatus, q: seq<Offer>, lines: seq<CardLine>, b: Board,
        q2: seq<Offer>, lines2: seq<CardLine>, b2: Board)
    requires DistinctRows(lines) && DistinctRows(lines2) && SameByRow(lines, b, lines2, b2)
    requires RowsFit(q, lines) && RowsFit(q2, lines2) && Strip(q) == Strip(q2)
    ensures SameByRow(lines, Greedy(tier, q, b), lines2, Greedy(tier, q2, b2))
  {
    assert |q| == |Strip(q)| == |Strip(q2)| == |q2|;
    if q != [] {
      var p, p2 := q[..|q| - 1], q2[..|q2| - 1];
      assert Strip(p) == Strip(q)[..|q| - 1] == Strip(q2)[..|q2| - 1] == Strip(p2);
      GreedySameByRow(tier, p, lines, b, p2, lines2, b2);
      assert Strip(q)[|q| - 1] == Strip(q2)[|q2| - 1];
      SettleSameByRow(tier, lines, Greedy(tier, p, b), q[|q| - 1], lines2, Greedy(tier, p2, b2), q2[|q2| - 1]);
    }
  }

  lemma SettleSameByRow(tier: MatchStatus, lines: seq<CardLine>, b: Board, o: Offer, lines2: seq<CardLine>, b2: Board,
        o2: Offer)
    requires DistinctRows(lines) && DistinctRows(lines2) && SameByRow(lines, b, lines2, b2)
    requires o.at < |lines| && o2.at < |lines2| && lines[o.at].rowNo == lines2[o2.at].rowNo
    requires o.gap == o2.gap && o.exp == o2.exp
    ensures SameByRow(lines, Settle(tier, b, o), lines2, Settle(tier, b2, o2))
  {
  }

  lemma TierSameByRow(tier: MatchStatus, nearDays: int, es: seq<ExpenseKey>, lines: seq<CardLine>, b: Board,
        lines2: seq<CardLine>, b2: Board)
    requires Rearranged(lines, lines2) && SameByRow(lines, b, lines2, b2)
    ensures SameByRow(lines, TierByScan(tier, nearDays, lines, es, b), lines2,
            TierByScan(tier, nearDays, lines2, es, b2))
  {
    var c, c2 := Candidates(tier, nearDays, lines, es), Candidates(tier, nearDays, lines2, es);
    SameQueue(tier, nearDays, es, lines, b, lines2, b2);
    QueueRowsFit(c, lines, b);
    QueueRowsFit(c2, lines2, b2);
    GreedySameByRow(tier, Queue(c, lines, b), lines, b, Queue(c2, lines2, b2), lines2, b2);
  }

  /** Rearranging the statement changes no row's verdict and no leftover expense. */
  lemma RowOrderIsIrrelevant(lines: seq<CardLine>, lines2: seq<CardLine>, es: seq<ExpenseKey>, nearDays: int, i: nat,
        j: nat)
    requires Rearranged(lines, lines2)
    requires i < |lines| && j < |lines2| && lines[i].rowNo == lines2[j].rowNo
    ensures MatchByScan(lines, es, nearDays).verdicts[i] == MatchByScan(lines2, es, nearDays).verdicts[j]
    ensures Leftover(es, MatchByScan(lines, es, nearDays).used) == Leftover(es, MatchByScan(lines2, es, nearDays).used)
  {
    TierSameByRow(Matched, nearDays, es, lines, StartBoard(lines), lines2, StartBoard(lines2));
    TierSameByRow(MatchedNear, nearDays, es, lines, AfterExact(lines, es, nearDays), lines2,
        AfterExact(lines2, es, nearDays));
    TierSameByRow(Candidate, nearDays, es, lines, AfterNear(lines, es, nearDays), lines2,
        AfterNear(lines2, es, nearDays));
  }
}
