/**
 What settling a sorted list guarantees: one expense per line and one line per expense,
 no offer refused without a better one standing in its way, and what both mean for the
 number of pairs found.
 */
module MatchingTheory {
  import opened Common
  import opened Matching

  /** Lines and used ids agree: each used id belongs to exactly one line, each decided line has one. */
  ghost predicate Coherent(b: Board) {
    && (forall i :: 0 <= i < |b.verdicts| ==>
        if b.verdicts[i].status == Unmatched then b.verdicts[i] == OPEN else b.verdicts[i].expenseId.Some?)
    && (forall i :: 0 <= i < |b.verdicts| && b.verdicts[i].expenseId.Some? ==> b.verdicts[i].expenseId.value in b.used)
    && (forall id :: id in b.used ==> exists i :: 0 <= i < |b.verdicts| && b.verdicts[i].expenseId == Some(id))
    && (forall i, j :: 0 <= i < j < |b.verdicts| && b.verdicts[i].expenseId.Some? ==>
        b.verdicts[i].expenseId != b.verdicts[j].expenseId)
  }

  /** Nothing decided before is changed, no used id is released. */
  predicate Extends(b: Board, c: Board) {
    && |b.verdicts| == |c.verdicts|
    && b.used <= c.used
    && forall i :: 0 <= i < |b.verdicts| && b.verdicts[i].status != Unmatched ==> c.verdicts[i] == b.verdicts[i]
  }

  /** The offer was accepted: its line holds its expense under this tier. */
  predicate Taken(tier: MatchStatus, b: Board, o: Offer) {
    o.at < |b.verdicts| && b.verdicts[o.at] == Verdict(tier, Some(o.exp.id), NoteFor(tier, o.gap))
  }

  lemma StartIsCoherent(lines: seq<CardLine>)
    ensures Coherent(StartBoard(lines))
  {
  }

  lemma SettleKeeps(tier: MatchStatus, b: Board, o: Offer)
    requires tier != Unmatched && Coherent(b) && o.at < |b.verdicts|
    ensures Coherent(Settle(tier, b, o)) && Extends(b, Settle(tier, b, o))
  {
    var c := Settle(tier, b, o);
    if b.verdicts[o.at].status == Unmatched && o.exp.id !in b.used {
      forall id | id in c.used ensures exists i :: 0 <= i < |c.verdicts| && c.verdicts[i].expenseId == Some(id) {
        if id == o.exp.id {
          assert c.verdicts[o.at].expenseId == Some(id);
        } else {
          var i :| 0 <= i < |b.verdicts| && b.verdicts[i].expenseId == Some(id);
          assert c.verdicts[i].expenseId == Some(id);
        }
      }
    }
  }

  lemma {:induction false} GreedyKeeps(tier: MatchStatus, q: seq<Offer>, b: Board)
    requires tier != Unmatched && Coherent(b) && InRange(q, |b.verdicts|)
    ensures Coherent(Greedy(tier, q, b)) && Extends(b, Greedy(tier, q, b))
  {
    if q != [] {
      GreedyKeeps(tier, q[..|q| - 1], b);
      SettleKeeps(tier, Greedy(tier, q[..|q| - 1], b), q[|q| - 1]);
    }
  }

  lemma TierKeeps(tier: MatchStatus, nearDays: int, lines: seq<CardLine>, es: seq<ExpenseKey>, b: Board)
    requires tier != Unmatched && Coherent(b) && |lines| == |b.verdicts|
    ensures Coherent(TierByScan(tier, nearDays, lines, es, b)) && Extends(b, TierByScan(tier, nearDays, lines, es, b))
  {
    GreedyKeeps(tier, Queue(Candidates(tier, nearDays, lines, es), lines, b), b);
  }

  /** Whatever the settling decided, it decided by accepting an offer of the list. */
  lemma {:induction false} GreedyOrigin(tier: MatchStatus, q: seq<Offer>, b: Board, i: nat)
    requires tier != Unmatched && Coherent(b) && InRange(q, |b.verdicts|) && i < |b.verdicts|
    requires b.verdicts[i].status == Unmatched && Greedy(tier, q, b).verdicts[i].status != Unmatched
    ensures exists k :: 0 <= k < |q| && q[k].at == i && q[k].exp.id !in b.used && Taken(tier, Greedy(tier, q, b), q[k])
  {
    var p := q[..|q| - 1];
    var c := Greedy(tier, p, b);
    GreedyKeeps(tier, p, b);
    if c.verdicts[i].status != Unmatched {
      GreedyOrigin(tier, p, b, i);
      var k :| 0 <= k < |p| && p[k].at == i && p[k].exp.id !in b.used && Taken(tier, c, p[k]);
      assert q[k] == p[k] && Taken(tier, Greedy(tier, q, b), q[k]);
    } else {
      var k := |q| - 1;
      assert q[k].at == i && Taken(tier, Greedy(tier, q, b), q[k]);
    }
  }

  /** An id that became used was given to the line of an accepted offer. */
  lemma GreedyOriginOfId(tier: MatchStatus, q: seq<Offer>, b: Board, id: int)
    requires tier != Unmatched && Coherent(b) && InRange(q, |b.verdicts|)
    requires id !in b.used && id in Greedy(tier, q, b).used
    ensures exists k ::
            0 <= k < |q| && q[k].exp.id == id && b.verdicts[q[k].at].status == Unmatched
            && Taken(tier, Greedy(tier, q, b), q[k])
  {
    var c := Greedy(tier, q, b);
    GreedyKeeps(tier, q, b);
    var i :| 0 <= i < |c.verdicts| && c.verdicts[i].expenseId == Some(id);
    GreedyOrigin(tier, q, b, i);
  }

  /** An offer that was open at the start is refused only because of one no later in the list. */
  lemma {:induction false} GreedyDominates(tier: MatchStatus, q: seq<Offer>, b: Board, k: nat)
    requires tier != Unmatched && Coherent(b) && InRange(q, |b.verdicts|) && k < |q|
    requires b.verdicts[q[k].at].status == Unmatched && q[k].exp.id !in b.used
    ensures exists j ::
            0 <= j <= k && Taken(tier, Greedy(tier, q, b), q[j]) && (q[j].at == q[k].at || q[j].exp.id == q[k].exp.id)
  {
    var p := q[..|q| - 1];
    var c := Greedy(tier, p, b);
    if k < |p| {
      GreedyDominates(tier, p, b, k);
      var j :| 0 <= j <= k && Taken(tier, c, p[j]) && (p[j].at == p[k].at || p[j].exp.id == p[k].exp.id);
      StillTaken(tier, q, b, j);
    } else if c.verdicts[q[k].at].status != Unmatched {
      GreedyOrigin(tier, p, b, q[k].at);
      var j :| 0 <= j < |p| && p[j].at == q[k].at && p[j].exp.id !in b.used && Taken(tier, c, p[j]);
      StillTaken(tier, q, b, j);
    } else if q[k].exp.id in c.used {
      GreedyOriginOfId(tier, p, b, q[k].exp.id);
      var j :| 0 <= j < |p| && p[j].exp.id == q[k].exp.id && b.verdicts[p[j].at].status == Unmatched
          && Taken(tier, c, p[j]);
      StillTaken(tier, q, b, j);
    } else {
      assert Taken(tier, Greedy(tier, q, b), q[k]);
    }
  }

  lemma StillTaken(tier: MatchStatus, q: seq<Offer>, b: Board, j: nat)
    requires tier != Unmatched && InRange(q, |b.verdicts|) && j + 1 < |q|
    requires Taken(tier, Greedy(tier, q[..|q| - 1], b), q[j])
    ensures Taken(tier, Greedy(tier, q, b), q[j])
  {
  }

  // ---------------------------------------------------------------- one tier as a matching

  /** Line i and expense e may still be paired when the tier starts. */
  predicate Free(tier: MatchStatus, nearDays: int, lines: seq<CardLine>, es: seq<ExpenseKey>, b: Board, i: nat,
        e: ExpenseKey) {
    && i < |lines| == |b.verdicts|
    && b.verdicts[i].status == Unmatched
    && e in es
    && e.id !in b.used
    && Compatible(tier, nearDays, lines[i], e)
  }

  /** Line i ended up with expense e in this tier. */
  predicate PairedIn(tier: MatchStatus, lines: seq<CardLine>, b: Board, i: nat, e: ExpenseKey) {
    && i < |lines| == |b.verdicts|
    && b.verdicts[i] == Verdict(tier, Some(e.id), NoteFor(tier, Gap(lines[i].approvedOn, e.spentAt)))
  }

  lemma FreeIsQueued(tier: MatchStatus, nearDays: int, lines: seq<CardLine>, es: seq<ExpenseKey>, b: Board, i: nat,
        e: ExpenseKey)
    requires |lines| == |b.verdicts|
    ensures Free(tier, nearDays, lines, es, b, i, e) <==>
            i < |lines| && Offer(Gap(lines[i].approvedOn, e.spentAt), lines[i].rowNo, i,
                e) in Queue(Candidates(tier, nearDays, lines, es), lines, b)
  {
    if i < |lines| {
      CompatiblesHas(tier, nearDays, lines[i], es, e);
      QueueHas(Candidates(tier, nearDays, lines, es), lines, b,
          Offer(Gap(lines[i].approvedOn, e.spentAt), lines[i].rowNo, i, e));
    }
  }

  /** An entry of the work list is a free pair with its own gap and row number. */
  lemma QueuedIsFree(tier: MatchStatus, nearDays: int, lines: seq<CardLine>, es: seq<ExpenseKey>, b: Board, o: Offer)
    requires |lines| == |b.verdicts|
    requires o in Queue(Candidates(tier, nearDays, lines, es), lines, b)
    ensures Free(tier, nearDays, lines, es, b, o.at, o.exp)
    ensures o.gap == Gap(lines[o.at].approvedOn, o.exp.spentAt) && o.rowNo == lines[o.at].rowNo
  {
    QueueHas(Candidates(tier, nearDays, lines, es), lines, b, o);
    CompatiblesHas(tier, nearDays, lines[o.at], es, o.exp);
  }

  /** The gap order the settling follows, with the row number breaking ties. */
  predicate NoLater(g1: nat, row1: int, g2: nat, row2: int) {
    g1 < g2 || (g1 == g2 && row1 <= row2)
  }

  /** In a sorted queue every open offer has an accepted one that shares a side and does not come later. */
  lemma TakenRival(tier: MatchStatus, q: seq<Offer>, b: Board, o: Offer) returns (x: Offer)
    requires tier != Unmatched && Coherent(b) && InRange(q, |b.verdicts|) && Sorted(q) && o in q
    requires o.at < |b.verdicts| && b.verdicts[o.at].status == Unmatched && o.exp.id !in b.used
    ensures x in q && Taken(tier, Greedy(tier, q, b), x) && (x.at == o.at || x.exp.id == o.exp.id) && !KeyLess(o, x)
  {
    var k :| 0 <= k < |q| && q[k] == o;
    GreedyDominates(tier, q, b, k);
    var j :| 0 <= j <= k && Taken(tier, Greedy(tier, q, b), q[j]) && (q[j].at == q[k].at || q[j].exp.id == q[k].exp.id);
    x := q[j];
  }

  lemma QueueIsSorted(cands: seq<seq<ExpenseKey>>, lines: seq<CardLine>, b: Board, o: Offer)
    requires |lines| == |cands| == |b.verdicts|
    ensures Sorted(Queue(cands, lines, b))
  {
    StableSortSorts(Pending(cands, lines, b, |lines|), o);
  }

  /**
   For every pair the tier could have made: the line got an expense no further away in days,
   or the expense went to a line that precedes this one in (gap, row number).
   */
  lemma NoBlockingPair(tier: MatchStatus, nearDays: int, lines: seq<CardLine>, es: seq<ExpenseKey>, b: Board, i: nat,
        e: ExpenseKey)
    requires tier != Unmatched && Coherent(b) && |lines| == |b.verdicts|
    requires Free(tier, nearDays, lines, es, b, i, e)
    ensures var c := TierByScan(tier, nearDays, lines, es, b);
            || (exists f :: Free(tier, nearDays, lines, es, b, i, f) && PairedIn(tier, lines, c, i, f)
                            && Gap(lines[i].approvedOn, f.spentAt) <= Gap(lines[i].approvedOn, e.spentAt))
            || (exists j: nat, f ::
                    Free(tier, nearDays, lines, es, b, j, f) && f.id == e.id && PairedIn(tier, lines, c, j, f)
                    && NoLater(Gap(lines[j].approvedOn, f.spentAt), lines[j].rowNo,
                                       Gap(lines[i].approvedOn, e.spentAt), lines[i].rowNo))
  {
    var cands := Candidates(tier, nearDays, lines, es);
    var o := Offer(Gap(lines[i].approvedOn, e.spentAt), lines[i].rowNo, i, e);
    FreeIsQueued(tier, nearDays, lines, es, b, i, e);
    QueueIsSorted(cands, lines, b, o);
    var x := TakenRival(tier, Queue(cands, lines, b), b, o);
    QueuedIsFree(tier, nearDays, lines, es, b, x);
    assert PairedIn(tier, lines, TierByScan(tier, nearDays, lines, es, b), x.at, x.exp);
  }

  /** What a line holds after a tier that left it open before is a free pair of that tier. */
  lemma PairedFromFree(tier: MatchStatus, nearDays: int, lines: seq<CardLine>, es: seq<ExpenseKey>, b: Board, i: nat)
      returns (e: ExpenseKey)
    requires tier != Unmatched && Coherent(b) && |lines| == |b.verdicts| && i < |lines|
    requires b.verdicts[i].status == Unmatched
    requires TierByScan(tier, nearDays, lines, es, b).verdicts[i].status != Unmatched
    ensures Free(tier, nearDays, lines, es, b, i, e)
    ensures PairedIn(tier, lines, TierByScan(tier, nearDays, lines, es, b), i, e)
  {
    var q := Queue(Candidates(tier, nearDays, lines, es), lines, b);
    GreedyOrigin(tier, q, b, i);
    var k :| 0 <= k < |q| && q[k].at == i && q[k].exp.id !in b.used && Taken(tier, Greedy(tier, q, b), q[k]);
    QueuedIsFree(tier, nearDays, lines, es, b, q[k]);
    e := q[k].exp;
  }

  /** Whoever holds an id the tier gave out was free for it when the tier started. */
  lemma HolderWasFree(tier: MatchStatus, nearDays: int, lines: seq<CardLine>, es: seq<ExpenseKey>, b: Board, id: int)
      returns (i: nat, e: ExpenseKey)
    requires tier != Unmatched && Coherent(b) && |lines| == |b.verdicts|
    requires id !in b.used && id in TierByScan(tier, nearDays, lines, es, b).used
    ensures Free(tier, nearDays, lines, es, b, i, e) && e.id == id
    ensures PairedIn(tier, lines, TierByScan(tier, nearDays, lines, es, b), i, e)
  {
    var q := Queue(Candidates(tier, nearDays, lines, es), lines, b);
    GreedyOriginOfId(tier, q, b, id);
    var k :| 0 <= k < |q| && q[k].exp.id == id && b.verdicts[q[k].at].status == Unmatched
        && Taken(tier, Greedy(tier, q, b), q[k]);
    QueuedIsFree(tier, nearDays, lines, es, b, q[k]);
    i, e := q[k].at, q[k].exp;
  }

  /** After the tier no free pair is left with both sides open. */
  lemma TierIsMaximal(tier: MatchStatus, nearDays: int, lines: seq<CardLine>, es: seq<ExpenseKey>, b: Board, i: nat,
        e: ExpenseKey)
    requires tier != Unmatched && Coherent(b) && |lines| == |b.verdicts|
    requires Free(tier, nearDays, lines, es, b, i, e)
    ensures var c := TierByScan(tier, nearDays, lines, es, b);
            c.verdicts[i].status != Unmatched || e.id in c.used
  {
    NoBlockingPair(tier, nearDays, lines, es, b, i, e);
    TierKeeps(tier, nearDays, lines, es, b);
  }

  /** NoBlockingPair for expenses with distinct ids. */
  lemma TierIsFair(tier: MatchStatus, nearDays: int, lines: seq<CardLine>, es: seq<ExpenseKey>, b: Board, i: nat,
        e: ExpenseKey)
    requires tier != Unmatched && Coherent(b) && |lines| == |b.verdicts| && DistinctIds(es)
    requires Free(tier, nearDays, lines, es, b, i, e)
    ensures var c := TierByScan(tier, nearDays, lines, es, b);
            || (exists f ::
                    f in es && PairedIn(tier, lines, c, i, f)
                    && Gap(lines[i].approvedOn, f.spentAt) <= Gap(lines[i].approvedOn, e.spentAt))
            || (exists j: nat :: PairedIn(tier, lines, c, j, e)
                  && NoLater(Gap(lines[j].approvedOn, e.spentAt), lines[j].rowNo, Gap(lines[i].approvedOn, e.spentAt),
                      lines[i].rowNo))
  {
    var c := TierByScan(tier, nearDays, lines, es, b);
    NoBlockingPair(tier, nearDays, lines, es, b, i, e);
    if f :| Free(tier, nearDays, lines, es, b, i, f) && PairedIn(tier, lines, c, i, f)
            && Gap(lines[i].approvedOn, f.spentAt) <= Gap(lines[i].approvedOn, e.spentAt) {
    } else {
      var j: nat, f :| Free(tier, nearDays, lines, es, b, j, f) && f.id == e.id && PairedIn(tier, lines, c, j, f)
        && NoLater(Gap(lines[j].approvedOn, f.spentAt), lines[j].rowNo, Gap(lines[i].approvedOn, e.spentAt),
            lines[i].rowNo);
      assert f == e;
    }
  }

  /** A line that comes first in (gap, row number) for an expense is not left open while a later line has it. */
  lemma EarlierLineIsServed(tier: MatchStatus, nearDays: int, lines: seq<CardLine>, es: seq<ExpenseKey>, b: Board,
        i: nat, j: nat, e: ExpenseKey)
    requires tier != Unmatched && Coherent(b) && |lines| == |b.verdicts| && DistinctIds(es)
    requires Free(tier, nearDays, lines, es, b, j, e)
    requires PairedIn(tier, lines, TierByScan(tier, nearDays, lines, es, b), i, e)
    requires !NoLater(Gap(lines[i].approvedOn, e.spentAt), lines[i].rowNo, Gap(lines[j].approvedOn, e.spentAt),
            lines[j].rowNo)
    ensures TierByScan(tier, nearDays, lines, es, b).verdicts[j].status != Unmatched
  {
    TierKeeps(tier, nearDays, lines, es, b);
    TierIsFair(tier, nearDays, lines, es, b, j, e);
  }

  // ---------------------------------------------------------------- how many pairs

  /** Lines the tier decided. */
  function Gained(b: Board, c: Board): (s: set<nat>)
    requires |b.verdicts| == |c.verdicts|
  {
    set i: nat | i < |b.verdicts| && b.verdicts[i].status == Unmatched && c.verdicts[i].status != Unmatched
  }

  /** No two pairs share a line or an expense id. */
  ghost predicate OneToOne(m: set<(nat, ExpenseKey)>) {
    forall x, y :: x in m && y in m && x != y ==> x.0 != y.0 && x.1.id != y.1.id
  }

  /** Pairs with distinct lines, all of them in s, are no more than s. */
  lemma {:induction false} PairsByLine(m: set<(nat, ExpenseKey)>, s: set<nat>)
    requires OneToOne(m) && forall x :: x in m ==> x.0 in s
    ensures |m| <= |s|
    decreases m
  {
    if m != {} {
      var x :| x in m;
      PairsByLine(m - {x}, s - {x.0});
    }
  }

  /** Pairs with distinct ids, all of them in t, are no more than t. */
  lemma {:induction false} PairsById(m: set<(nat, ExpenseKey)>, t: set<int>)
    requires OneToOne(m) && forall x :: x in m ==> x.1.id in t
    ensures |m| <= |t|
    decreases m
  {
    if m != {} {
      var x :| x in m;
      PairsById(m - {x}, t - {x.1.id});
    }
  }

  /** The ids held by a set of decided lines: as many as the lines. */
  function IdsHeld(c: Board, s: set<nat>): set<int>
    requires forall i :: i in s ==> i < |c.verdicts|
  {
    set i | i in s && c.verdicts[i].expenseId.Some? :: c.verdicts[i].expenseId.value
  }

  lemma {:induction false} IdsHeldSize(c: Board, s: set<nat>)
    requires Coherent(c) && forall i :: i in s ==> i < |c.verdicts| && c.verdicts[i].status != Unmatched
    ensures |IdsHeld(c, s)| == |s|
    decreases s
  {
    if s == {} {
      assert IdsHeld(c, s) == {};
    } else {
      var i :| i in s;
      IdsHeldSize(c, s - {i});
      var v := c.verdicts[i].expenseId.value;
      assert v !in IdsHeld(c, s - {i});
      assert IdsHeld(c, s) == IdsHeld(c, s - {i}) + {v};
    }
  }

  /** A free pair whose line stayed open has its expense held by a line the tier decided. */
  lemma OtherwiseHeld(tier: MatchStatus, nearDays: int, lines: seq<CardLine>, es: seq<ExpenseKey>, b: Board, i: nat,
        e: ExpenseKey)
    requires tier != Unmatched && Coherent(b) && |lines| == |b.verdicts|
    requires Free(tier, nearDays, lines, es, b, i, e)
    ensures var c := TierByScan(tier, nearDays, lines, es, b);
            i in Gained(b, c) || e.id in IdsHeld(c, Gained(b, c))
  {
    var c := TierByScan(tier, nearDays, lines, es, b);
    TierKeeps(tier, nearDays, lines, es, b);
    TierIsMaximal(tier, nearDays, lines, es, b, i, e);
    if i !in Gained(b, c) {
      var k :| 0 <= k < |c.verdicts| && c.verdicts[k].expenseId == Some(e.id);
      assert k in Gained(b, c);
    }
  }

  /** A tier finds at least half as many pairs as any one-to-one choice of free pairs. */
  lemma AtLeastHalf(tier: MatchStatus, nearDays: int, lines: seq<CardLine>, es: seq<ExpenseKey>, b: Board,
        m: set<(nat, ExpenseKey)>)
    requires tier != Unmatched && Coherent(b) && |lines| == |b.verdicts|
    requires OneToOne(m) && forall x :: x in m ==> Free(tier, nearDays, lines, es, b, x.0, x.1)
    ensures |m| <= 2 * |Gained(b, TierByScan(tier, nearDays, lines, es, b))|
  {
    var c := TierByScan(tier, nearDays, lines, es, b);
    var gained := Gained(b, c);
    var held := IdsHeld(c, gained);
    assert |held| == |gained| by {
      TierKeeps(tier, nearDays, lines, es, b);
      IdsHeldSize(c, gained);
    }
    forall x | x in m ensures x.0 in gained || x.1.id in held {
      OtherwiseHeld(tier, nearDays, lines, es, b, x.0, x.1);
    }
    HalfByCounting(m, gained, held);
  }

  lemma HalfByCounting(m: set<(nat, ExpenseKey)>, s: set<nat>, t: set<int>)
    requires OneToOne(m) && forall x :: x in m ==> x.0 in s || x.1.id in t
    ensures |m| <= |s| + |t|
  {
    var m1 := set x | x in m && x.0 in s;
    var m2 := set x | x in m && x.0 !in s;
    PairsByLine(m1, s);
    PairsById(m2, t);
    assert m == m1 + m2 && m1 !! m2;
  }
}
