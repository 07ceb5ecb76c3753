/** The three tiers together. */
module MatcherProperties {
  import opened Common
  import opened Matching
  import opened MatchingTheory

  // ---------------------------------------------------------------- the tiers as one chain

  lemma TiersKeep(lines: seq<CardLine>, es: seq<ExpenseKey>, nearDays: int)
    ensures Coherent(StartBoard(lines)) && Coherent(AfterExact(lines, es, nearDays))
    ensures Coherent(AfterNear(lines, es, nearDays)) && Coherent(MatchByScan(lines, es, nearDays))
    ensures Extends(AfterExact(lines, es, nearDays), AfterNear(lines, es, nearDays))
    ensures Extends(AfterNear(lines, es, nearDays), MatchByScan(lines, es, nearDays))
  {
    StartIsCoherent(lines);
    TierKeeps(Matched, nearDays, lines, es, StartBoard(lines));
    TierKeeps(MatchedNear, nearDays, lines, es, AfterExact(lines, es, nearDays));
    TierKeeps(Candidate, nearDays, lines, es, AfterNear(lines, es, nearDays));
  }

  /** The board a tier starts from and the one it leaves. */
  function BoardBefore(tier: MatchStatus, lines: seq<CardLine>, es: seq<ExpenseKey>, nearDays: int): (b: Board)
    ensures |b.verdicts| == |lines|
  {
    match tier
    case Matched => StartBoard(lines)
    case MatchedNear => AfterExact(lines, es, nearDays)
    case _ => AfterNear(lines, es, nearDays)
  }

  function BoardAfter(tier: MatchStatus, lines: seq<CardLine>, es: seq<ExpenseKey>, nearDays: int): (b: Board)
    ensures |b.verdicts| == |lines|
  {
    match tier
    case Matched => AfterExact(lines, es, nearDays)
    case MatchedNear => AfterNear(lines, es, nearDays)
    case _ => MatchByScan(lines, es, nearDays)
  }

  /** A line is decided by the tier its verdict names, and keeps that verdict. */
  lemma DecidedByItsTier(lines: seq<CardLine>, es: seq<ExpenseKey>, nearDays: int, i: nat)
    requires i < |lines|
    ensures var v := MatchByScan(lines, es, nearDays).verdicts[i];
            v.status != Unmatched ==>
              && BoardBefore(v.status, lines, es, nearDays).verdicts[i].status == Unmatched
              && BoardAfter(v.status, lines, es, nearDays).verdicts[i] == v
  {
    TiersKeep(lines, es, nearDays);
    var final := MatchByScan(lines, es, nearDays);
    if AfterExact(lines, es, nearDays).verdicts[i].status != Unmatched {
      var _ := PairedFromFree(Matched, nearDays, lines, es, StartBoard(lines), i);
    } else if AfterNear(lines, es, nearDays).verdicts[i].status != Unmatched {
      var _ := PairedFromFree(MatchedNear, nearDays, lines, es, AfterExact(lines, es, nearDays), i);
    } else if final.verdicts[i].status != Unmatched {
      var _ := PairedFromFree(Candidate, nearDays, lines, es, AfterNear(lines, es, nearDays), i);
    }
  }

  /** Every verdict names a tier, and its expense satisfies that tier's own condition; the note is the tier's. */
  lemma VerdictIsJustified(lines: seq<CardLine>, es: seq<ExpenseKey>, nearDays: int, i: nat)
      returns (e: ExpenseKey)
    requires i < |lines| && MatchByScan(lines, es, nearDays).verdicts[i].status != Unmatched
    ensures var v := MatchByScan(lines, es, nearDays).verdicts[i];
            && e in es && Compatible(v.status, nearDays, lines[i], e)
            && v == Verdict(v.status, Some(e.id), NoteFor(v.status, Gap(lines[i].approvedOn, e.spentAt)))
            && Free(v.status, nearDays, lines, es, BoardBefore(v.status, lines, es, nearDays), i, e)
  {
    var v := MatchByScan(lines, es, nearDays).verdicts[i];
    DecidedByItsTier(lines, es, nearDays, i);
    TiersKeep(lines, es, nearDays);
    e := PairedFromFree(v.status, nearDays, lines, es, BoardBefore(v.status, lines, es, nearDays), i);
  }

  // ---------------------------------------------------------------- one to one, nothing lost

  lemma {:induction false} LeftoverHas(es: seq<ExpenseKey>, used: set<int>, id: int)
    ensures id in Leftover(es, used) <==> id !in used && exists e :: e in es && e.id == id
  {
    if es != [] {
      LeftoverHas(es[..|es| - 1], used, id);
      assert es == es[..|es| - 1] + [es[|es| - 1]];
    }
  }

  lemma {:induction false} LeftoverCount(es: seq<ExpenseKey>, used: set<int>)
    requires DistinctIds(es) && forall id :: id in used ==> exists e :: e in es && e.id == id
    ensures |used| + |Leftover(es, used)| == |es|
  {
    if es == [] {
      assert used == {};
    } else {
      var last := es[|es| - 1];
      var rest := es[..|es| - 1];
      forall id | id in used - {last.id} ensures exists e :: e in rest && e.id == id {
        var e :| e in es && e.id == id;
        assert e in rest;
      }
      LeftoverCount(rest, used - {last.id});
      LeftoverIgnores(rest, used, last.id);
    }
  }

  /** An id no expense carries does not matter. */
  lemma {:induction false} LeftoverIgnores(es: seq<ExpenseKey>, used: set<int>, id: int)
    requires forall e :: e in es ==> e.id != id
    ensures Leftover(es, used) == Leftover(es, used - {id})
  {
    if es != [] {
      LeftoverIgnores(es[..|es| - 1], used, id);
    }
  }

  /** The used ids are ids of expenses, and as many as the decided lines. */
  lemma UsedAreExpenses(lines: seq<CardLine>, es: seq<ExpenseKey>, nearDays: int)
    ensures var b := MatchByScan(lines, es, nearDays);
            && (forall id :: id in b.used ==> exists e :: e in es && e.id == id)
            && |Gained(StartBoard(lines), b)| == |b.used|
  {
    var b := MatchByScan(lines, es, nearDays);
    TiersKeep(lines, es, nearDays);
    forall id | id in b.used ensures exists e :: e in es && e.id == id {
      var i :| 0 <= i < |b.verdicts| && b.verdicts[i].expenseId == Some(id);
      var e := VerdictIsJustified(lines, es, nearDays, i);
      assert e in es && e.id == id;
    }
    DecidedAndUsed(StartBoard(lines), b);
  }

  lemma DecidedAndUsed(a: Board, b: Board)
    requires Coherent(b) && |a.verdicts| == |b.verdicts|
    requires forall i :: 0 <= i < |a.verdicts| ==> a.verdicts[i] == OPEN
    ensures |Gained(a, b)| == |b.used|
  {
    var gained := Gained(a, b);
    IdsHeldSize(b, gained);
    forall id | id in b.used ensures id in IdsHeld(b, gained) {
      var i :| 0 <= i < |b.verdicts| && b.verdicts[i].expenseId == Some(id);
      assert i in gained;
    }
    assert IdsHeld(b, gained) == b.used;
  }

  lemma LeftoverIsUnheld(b: Board, es: seq<ExpenseKey>, e: ExpenseKey)
    requires Coherent(b) && e in es
    ensures e.id in Leftover(es, b.used) <==> forall i :: 0 <= i < |b.verdicts| ==>
            b.verdicts[i].expenseId != Some(e.id)
  {
    LeftoverHas(es, b.used, e.id);
  }

  /**
   No expense serves two lines; the leftover list holds exactly the ids no line got; and the
   decided lines and the leftover expenses together account for every expense.
   */
  lemma MatchingConserves(lines: seq<CardLine>, es: seq<ExpenseKey>, nearDays: int)
    requires DistinctIds(es)
    ensures var b := MatchByScan(lines, es, nearDays);
            && (forall i, j :: 0 <= i < j < |lines| && b.verdicts[i].expenseId.Some? ==>
                b.verdicts[i].expenseId != b.verdicts[j].expenseId)
            && (forall e :: e in es ==> (e.id in Leftover(es, b.used) <==> forall i :: 0 <= i < |lines| ==>
                b.verdicts[i].expenseId != Some(e.id)))
            && |Gained(StartBoard(lines), b)| + |Leftover(es, b.used)| == |es|
  {
    var b := MatchByScan(lines, es, nearDays);
    assert Coherent(b) by { TiersKeep(lines, es, nearDays); }
    UsedAreExpenses(lines, es, nearDays);
    LeftoverCount(es, b.used);
    forall e | e in es ensures e.id in Leftover(es, b.used) <==> forall i :: 0 <= i < |lines| ==>
        b.verdicts[i].expenseId != Some(e.id) {
      LeftoverIsUnheld(b, es, e);
    }
  }

  /** At the end no undecided line and unused expense satisfy the condition of any tier. */
  lemma NothingLeftToMatch(lines: seq<CardLine>, es: seq<ExpenseKey>, nearDays: int, tier: MatchStatus, i: nat,
        e: ExpenseKey)
    requires tier != Unmatched && i < |lines| && e in es && Compatible(tier, nearDays, lines[i], e)
    ensures MatchByScan(lines, es, nearDays).verdicts[i].status != Unmatched
            || e.id in MatchByScan(lines, es, nearDays).used
  {
    TiersKeep(lines, es, nearDays);
    var b := BoardBefore(tier, lines, es, nearDays);
    if b.verdicts[i].status == Unmatched && e.id !in b.used {
      TierIsMaximal(tier, nearDays, lines, es, b, i, e);
    }
  }

  /** The pairs are of the statement and the list, and each satisfies the condition of some tier. */
  ghost predicate Pairable(lines: seq<CardLine>, es: seq<ExpenseKey>, nearDays: int, m: set<(nat, ExpenseKey)>) {
    forall x :: x in m ==> x.0 < |lines| && x.1 in es && exists tier ::
        tier != Unmatched && Compatible(tier, nearDays, lines[x.0], x.1)
  }

  /**
   The three tiers together decide at least half as many lines as any one-to-one choice of pairs
   compatible under any tier.
   */
  lemma WholeMatcherAtLeastHalf(lines: seq<CardLine>, es: seq<ExpenseKey>, nearDays: int, m: set<(nat, ExpenseKey)>)
    requires OneToOne(m) && Pairable(lines, es, nearDays, m)
    ensures |m| <= 2 * |set i: nat | i < |lines| && MatchByScan(lines, es, nearDays).verdicts[i].status != Unmatched|
  {
    var b := MatchByScan(lines, es, nearDays);
    var decided := set i: nat | i < |lines| && b.verdicts[i].status != Unmatched;
    TiersKeep(lines, es, nearDays);
    forall x | x in m ensures x.0 in decided || x.1.id in b.used {
      var tier :| tier != Unmatched && Compatible(tier, nearDays, lines[x.0], x.1);
      NothingLeftToMatch(lines, es, nearDays, tier, x.0, x.1);
    }
    HalfByCounting(m, decided, b.used);
    DecidedAndUsed(StartBoard(lines), b);
    assert Gained(StartBoard(lines), b) == decided;
  }

  // ---------------------------------------------------------------- the exact tier

  predicate SameExactKey(a: CardLine, b: CardLine) {
    a.bizNo == b.bizNo && a.amount == b.amount && a.approvedOn == b.approvedOn
  }

  /** Lines with the same business number, amount and date but a smaller row number. */
  function Ahead(lines: seq<CardLine>, i: nat): set<nat>
    requires i < |lines|
  {
    set j: nat | j < |lines| && SameExactKey(lines[j], lines[i]) && lines[j].rowNo < lines[i].rowNo
  }

  /** Expenses with the line's business number, amount and date. */
  function ExactMatches(es: seq<ExpenseKey>, ln: CardLine): set<ExpenseKey> {
    set e | e in es && Compatible(Matched, 0, ln, e)
  }

  /** Lines of i's key that the exact tier decided. */
  function Served(lines: seq<CardLine>, es: seq<ExpenseKey>, nearDays: int, i: nat): (s: set<nat>)
    requires i < |lines|
    ensures forall j :: j in s ==> j < |lines|
  {
    set j: nat | j < |lines| && SameExactKey(lines[j], lines[i])
        && AfterExact(lines, es, nearDays).verdicts[j].status != Unmatched
  }

  /** The served lines hold only ids of i's claims. */
  lemma ServedHoldClaims(lines: seq<CardLine>, es: seq<ExpenseKey>, nearDays: int, i: nat)
    requires i < |lines|
    ensures IdsHeld(AfterExact(lines, es, nearDays), Served(lines, es, nearDays, i)) <=
            set e | e in ExactMatches(es, lines[i]) :: e.id
    ensures |IdsHeld(AfterExact(lines, es, nearDays), Served(lines, es, nearDays, i))| ==
            |Served(lines, es, nearDays, i)|
  {
    var c := AfterExact(lines, es, nearDays);
    var served := Served(lines, es, nearDays, i);
    StartIsCoherent(lines);
    assert |IdsHeld(c, served)| == |served| by {
      TierKeeps(Matched, nearDays, lines, es, StartBoard(lines));
      IdsHeldSize(c, served);
    }
    forall id | id in IdsHeld(c, served) ensures exists e :: e in ExactMatches(es, lines[i]) && e.id == id {
      var j :| j in served && c.verdicts[j].expenseId == Some(id);
      var e := PairedFromFree(Matched, nearDays, lines, es, StartBoard(lines), j);
      assert e in ExactMatches(es, lines[i]);
    }
  }

  /** If a line of the key was not served, every claim of the key is held by a served line. */
  lemma ClaimHolder(lines: seq<CardLine>, es: seq<ExpenseKey>, nearDays: int, i: nat, j: nat, e: ExpenseKey)
      returns (k: nat)
    requires i < |lines| && j < |lines| && SameExactKey(lines[j], lines[i])
    requires AfterExact(lines, es, nearDays).verdicts[j].status == Unmatched
    requires DistinctIds(es) && e in ExactMatches(es, lines[i])
    ensures k in Served(lines, es, nearDays, i) && AfterExact(lines, es, nearDays).verdicts[k].expenseId == Some(e.id)
  {
    StartIsCoherent(lines);
    TierIsMaximal(Matched, nearDays, lines, es, StartBoard(lines), j, e);
    var f;
    k, f := HolderWasFree(Matched, nearDays, lines, es, StartBoard(lines), e.id);
    assert f == e;
  }

  lemma ClaimsAllHeld(lines: seq<CardLine>, es: seq<ExpenseKey>, nearDays: int, i: nat, j: nat)
    requires i < |lines| && j < |lines| && SameExactKey(lines[j], lines[i])
    requires AfterExact(lines, es, nearDays).verdicts[j].status == Unmatched
    requires DistinctIds(es)
    ensures (set e | e in ExactMatches(es, lines[i]) :: e.id) <=
            IdsHeld(AfterExact(lines, es, nearDays), Served(lines, es, nearDays, i))
  {
    var c := AfterExact(lines, es, nearDays);
    var served := Served(lines, es, nearDays, i);
    forall e | e in ExactMatches(es, lines[i]) ensures e.id in IdsHeld(c, served) {
      var k := ClaimHolder(lines, es, nearDays, i, j, e);
    }
  }

  /** Distinct expenses have as many ids. */
  lemma {:induction false} IdCount(s: set<ExpenseKey>)
    requires forall e, f :: e in s && f in s && e != f ==> e.id != f.id
    ensures |set e | e in s :: e.id| == |s|
  {
    if s == {} {
      assert (set e | e in s :: e.id) == {};
    } else {
      var e :| e in s;
      IdCount(s - {e});
      assert (set f | f in s :: f.id) == (set f | f in s - {e} :: f.id) + {e.id};
    }
  }

  lemma {:induction false} SubsetSize<T>(a: set<T>, b: set<T>)
    requires a <= b
    ensures |a| <= |b|
  {
    if a != {} {
      var x :| x in a;
      SubsetSize(a - {x}, b - {x});
    }
  }

  /** A served line of the key leaves no unserved line of the key before it. */
  lemma ServedInRowOrder(lines: seq<CardLine>, es: seq<ExpenseKey>, nearDays: int, i: nat, j: nat)
    requires DistinctIds(es) && i < |lines| && j < |lines| && SameExactKey(lines[j], lines[i])
    requires lines[j].rowNo < lines[i].rowNo
    requires AfterExact(lines, es, nearDays).verdicts[i].status != Unmatched
    ensures AfterExact(lines, es, nearDays).verdicts[j].status != Unmatched
  {
    StartIsCoherent(lines);
    var e := PairedFromFree(Matched, nearDays, lines, es, StartBoard(lines), i);
    EarlierLineIsServed(Matched, nearDays, lines, es, StartBoard(lines), i, j, e);
  }

  /** A served line has fewer lines ahead of it than its key has expenses. */
  lemma ServedHasRoom(lines: seq<CardLine>, es: seq<ExpenseKey>, nearDays: int, i: nat)
    requires DistinctIds(es) && i < |lines|
    requires AfterExact(lines, es, nearDays).verdicts[i].status != Unmatched
    ensures |Ahead(lines, i)| < |ExactMatches(es, lines[i])|
  {
    var served := Served(lines, es, nearDays, i);
    forall j | j in Ahead(lines, i) ensures j in served {
      ServedInRowOrder(lines, es, nearDays, i, j);
    }
    SubsetSize(Ahead(lines, i) + {i}, served);
    ServedHoldClaims(lines, es, nearDays, i);
    SubsetSize(IdsHeld(AfterExact(lines, es, nearDays), served), set e | e in ExactMatches(es, lines[i]) :: e.id);
    IdCount(ExactMatches(es, lines[i]));
  }

  /** An unserved line has at least as many lines ahead of it as its key has expenses. */
  lemma UnservedHasNone(lines: seq<CardLine>, es: seq<ExpenseKey>, nearDays: int, i: nat)
    requires DistinctIds(es) && DistinctRows(lines) && i < |lines|
    requires AfterExact(lines, es, nearDays).verdicts[i].status == Unmatched
    ensures |ExactMatches(es, lines[i])| <= |Ahead(lines, i)|
  {
    var served := Served(lines, es, nearDays, i);
    forall j | j in served ensures j in Ahead(lines, i) {
      if lines[i].rowNo < lines[j].rowNo {
        ServedInRowOrder(lines, es, nearDays, j, i);
      }
    }
    SubsetSize(served, Ahead(lines, i));
    ServedHoldClaims(lines, es, nearDays, i);
    ClaimsAllHeld(lines, es, nearDays, i, i);
    SubsetSize(set e | e in ExactMatches(es, lines[i]) :: e.id, IdsHeld(AfterExact(lines, es, nearDays), served));
    IdCount(ExactMatches(es, lines[i]));
  }

  /** MATCHED at the end is decided by the exact tier. */
  lemma MatchedIsExact(lines: seq<CardLine>, es: seq<ExpenseKey>, nearDays: int, i: nat)
    requires i < |lines|
    ensures MatchByScan(lines, es, nearDays).verdicts[i].status == Matched <==>
            AfterExact(lines, es, nearDays).verdicts[i].status != Unmatched
  {
    TiersKeep(lines, es, nearDays);
    DecidedByItsTier(lines, es, nearDays, i);
    if AfterExact(lines, es, nearDays).verdicts[i].status != Unmatched {
      var _ := PairedFromFree(Matched, nearDays, lines, es, StartBoard(lines), i);
    }
  }

  /**
   A line ends MATCHED exactly when its key has more expenses than lines with a smaller row
   number: the exact tier serves the lowest rows of each key, as many as there are expenses,
   whatever the order of either list.
   */
  lemma ExactTierByRank(lines: seq<CardLine>, es: seq<ExpenseKey>, nearDays: int, i: nat)
    requires DistinctIds(es) && DistinctRows(lines) && i < |lines|
    ensures MatchByScan(lines, es, nearDays).verdicts[i].status == Matched <==>
            |Ahead(lines, i)| < |ExactMatches(es, lines[i])|
  {
    MatchedIsExact(lines, es, nearDays, i);
    if AfterExact(lines, es, nearDays).verdicts[i].status != Unmatched {
      ServedHasRoom(lines, es, nearDays, i);
    } else {
      UnservedHasNone(lines, es, nearDays, i);
    }
  }

  /** Which lines end MATCHED does not depend on the order of the expenses. */
  lemma ExactTierIgnoresExpenseOrder(lines: seq<CardLine>, es: seq<ExpenseKey>, fs: seq<ExpenseKey>, nearDays: int,
        i: nat)
    requires DistinctIds(es) && DistinctIds(fs) && DistinctRows(lines) && i < |lines|
    requires multiset(es) == multiset(fs)
    ensures MatchByScan(lines, es, nearDays).verdicts[i].status == Matched <==>
            MatchByScan(lines, fs, nearDays).verdicts[i].status == Matched
  {
    ExactTierByRank(lines, es, nearDays, i);
    ExactTierByRank(lines, fs, nearDays, i);
    forall e ensures e in es <==> e in fs {
      assert e in es <==> e in multiset(es);
      assert e in fs <==> e in multiset(fs);
    }
    assert ExactMatches(es, lines[i]) == ExactMatches(fs, lines[i]);
  }

  ghost predicate ExactPairs(lines: seq<CardLine>, es: seq<ExpenseKey>, m: set<(nat, ExpenseKey)>) {
    OneToOne(m) && forall x :: x in m ==> x.0 < |lines| && x.1 in es && Compatible(Matched, 0, lines[x.0], x.1)
  }

  /** Within one key no one-to-one choice has more pairs than the exact tier. */
  lemma KeyIsMaximum(lines: seq<CardLine>, es: seq<ExpenseKey>, nearDays: int, i: nat, m: set<(nat, ExpenseKey)>)
    requires DistinctIds(es) && i < |lines| && ExactPairs(lines, es, m)
    requires forall x :: x in m ==> SameExactKey(lines[x.0], lines[i])
    ensures |m| <= |Served(lines, es, nearDays, i)|
  {
    var c := AfterExact(lines, es, nearDays);
    var served := Served(lines, es, nearDays, i);
    if j: nat :| j < |lines| && SameExactKey(lines[j], lines[i]) && c.verdicts[j].status == Unmatched {
      ClaimsAllHeld(lines, es, nearDays, i, j);
      ServedHoldClaims(lines, es, nearDays, i);
      forall x | x in m ensures x.1.id in IdsHeld(c, served) {
        assert x.1 in ExactMatches(es, lines[i]);
      }
      PairsById(m, IdsHeld(c, served));
    } else {
      PairsByLine(m, served);
    }
  }

  lemma ServedOfOtherKey(lines: seq<CardLine>, es: seq<ExpenseKey>, nearDays: int, i: nat, j: nat)
    requires i < |lines| && j < |lines| && !SameExactKey(lines[i], lines[j])
    ensures Served(lines, es, nearDays, i) !! Served(lines, es, nearDays, j)
  {
  }

  lemma SizesAddUp<S, T>(m: set<S>, part: set<S>, s: set<T>, cap: set<T>)
    requires part <= m && cap <= s && |part| <= |cap| && |m - part| <= |s - cap|
    ensures |m| <= |s|
  {
  }

  /** The pairs of m in x's key. */
  function KeyPart(lines: seq<CardLine>, m: set<(nat, ExpenseKey)>, i: nat): (p: set<(nat, ExpenseKey)>)
    requires i < |lines| && forall x :: x in m ==> x.0 < |lines|
    ensures p <= m
  {
    set y | y in m && SameExactKey(lines[y.0], lines[i])
  }

  /** If every key's pairs fit into that key's own part of s, all pairs fit into s. */
  lemma {:induction false} KeysAddUp(lines: seq<CardLine>, m: set<(nat, ExpenseKey)>, cap: map<nat, set<nat>>,
        s: set<nat>)
    requires forall x :: x in m ==> x.0 < |lines| && x.0 in cap && cap[x.0] <= s
    requires forall x :: x in m ==> |KeyPart(lines, m, x.0)| <= |cap[x.0]|
    requires forall x, y :: x in m && y in m && !SameExactKey(lines[x.0], lines[y.0]) ==> cap[x.0] !! cap[y.0]
    ensures |m| <= |s|
    decreases m
  {
    if m != {} {
      var x :| x in m;
      var part := KeyPart(lines, m, x.0);
      assert x in part;
      forall y | y in m - part ensures KeyPart(lines, m - part, y.0) == KeyPart(lines, m, y.0) {
      }
      KeysAddUp(lines, m - part, cap, s - cap[x.0]);
      SizesAddUp(m, part, s, cap[x.0]);
    }
  }

  /** No one-to-one choice of exact pairs is larger than the set of MATCHED lines. */
  lemma ExactTierIsMaximum(lines: seq<CardLine>, es: seq<ExpenseKey>, nearDays: int, m: set<(nat, ExpenseKey)>)
    requires DistinctIds(es) && ExactPairs(lines, es, m)
    ensures |m| <= |set i: nat | i < |lines| && MatchByScan(lines, es, nearDays).verdicts[i].status == Matched|
  {
    var s := set i: nat | i < |lines| && MatchByScan(lines, es, nearDays).verdicts[i].status == Matched;
    var cap := map i: nat | i < |lines| :: Served(lines, es, nearDays, i);
    forall x | x in m ensures cap[x.0] <= s {
      ServedAreMatched(lines, es, nearDays, x.0);
    }
    forall x | x in m ensures |KeyPart(lines, m, x.0)| <= |cap[x.0]| {
      KeyIsMaximum(lines, es, nearDays, x.0, KeyPart(lines, m, x.0));
    }
    forall x, y | x in m && y in m && !SameExactKey(lines[x.0], lines[y.0]) ensures cap[x.0] !! cap[y.0] {
      ServedOfOtherKey(lines, es, nearDays, x.0, y.0);
    }
    KeysAddUp(lines, m, cap, s);
  }

  lemma ServedAreMatched(lines: seq<CardLine>, es: seq<ExpenseKey>, nearDays: int, i: nat)
    requires i < |lines|
    ensures forall j :: j in Served(lines, es, nearDays, i) ==>
            MatchByScan(lines, es, nearDays).verdicts[j].status == Matched
  {
    forall j | j in Served(lines, es, nearDays, i) ensures MatchByScan(lines, es, nearDays).verdicts[j].status ==
        Matched {
      MatchedIsExact(lines, es, nearDays, j);
    }
  }

  // ---------------------------------------------------------------- the near tier

  /**
   Every pair the near tier could have made: the line got an expense no further away, or this
   expense went to a line no later in (gap, row number).
   */
  lemma NearTierIsFair(lines: seq<CardLine>, es: seq<ExpenseKey>, nearDays: int, i: nat, e: ExpenseKey)
    requires DistinctIds(es)
    requires Free(MatchedNear, nearDays, lines, es, AfterExact(lines, es, nearDays), i, e)
    ensures var b := MatchByScan(lines, es, nearDays);
            || (exists f ::
                    f in es && PairedIn(MatchedNear, lines, b, i, f)
                    && Gap(lines[i].approvedOn, f.spentAt) <= Gap(lines[i].approvedOn, e.spentAt))
            || (exists j: nat :: j < |lines| && PairedIn(MatchedNear, lines, b, j, e)
                  && NoLater(Gap(lines[j].approvedOn, e.spentAt), lines[j].rowNo, Gap(lines[i].approvedOn, e.spentAt),
                      lines[i].rowNo))
  {
    TiersKeep(lines, es, nearDays);
    TierIsFair(MatchedNear, nearDays, lines, es, AfterExact(lines, es, nearDays), i, e);
  }

  /** At least half of the best the near tier could have done with what the exact tier left. */
  lemma NearTierAtLeastHalf(lines: seq<CardLine>, es: seq<ExpenseKey>, nearDays: int, m: set<(nat, ExpenseKey)>)
    requires OneToOne(m)
    requires forall x :: x in m ==> Free(MatchedNear, nearDays, lines, es, AfterExact(lines, es, nearDays), x.0, x.1)
    ensures |m| <= 2 * |set i: nat | i < |lines| && MatchByScan(lines, es, nearDays).verdicts[i].status == MatchedNear|
  {
    TiersKeep(lines, es, nearDays);
    var a := AfterExact(lines, es, nearDays);
    var gained := Gained(a, AfterNear(lines, es, nearDays));
    AtLeastHalf(MatchedNear, nearDays, lines, es, a, m);
    var s := set i: nat | i < |lines| && MatchByScan(lines, es, nearDays).verdicts[i].status == MatchedNear;
    forall i | i in gained ensures i in s {
      var _ := PairedFromFree(MatchedNear, nearDays, lines, es, a, i);
    }
    SubsetSize(gained, s);
  }

  /** A MATCHED_NEAR line and its expense are between one and nearDays days apart. */
  lemma NearGapIsPositive(lines: seq<CardLine>, es: seq<ExpenseKey>, nearDays: int, i: nat)
    requires i < |lines|
    ensures var v := MatchByScan(lines, es, nearDays).verdicts[i];
            v.status == MatchedNear ==> v.note.Some? && v.note.value.DaysApart? && 1 <= v.note.value.days <= nearDays
  {
    TiersKeep(lines, es, nearDays);
    if MatchByScan(lines, es, nearDays).verdicts[i].status == MatchedNear {
      var e := VerdictIsJustified(lines, es, nearDays, i);
      if Gap(lines[i].approvedOn, e.spentAt) == 0 {
        TierIsMaximal(Matched, nearDays, lines, es, StartBoard(lines), i, e);
      }
    }
  }

  /** If an expense went to a near line, every line with its exact key ended MATCHED. */
  lemma NearOnlyAfterExactIsServed(lines: seq<CardLine>, es: seq<ExpenseKey>, nearDays: int, i: nat, j: nat,
        e: ExpenseKey)
    requires DistinctIds(es) && i < |lines| && j < |lines| && e in es
    requires MatchByScan(lines, es, nearDays).verdicts[i].status == MatchedNear
    requires MatchByScan(lines, es, nearDays).verdicts[i].expenseId == Some(e.id)
    requires Compatible(Matched, nearDays, lines[j], e)
    ensures MatchByScan(lines, es, nearDays).verdicts[j].status == Matched
  {
    TiersKeep(lines, es, nearDays);
    var f := VerdictIsJustified(lines, es, nearDays, i);
    assert f == e;
    TierIsMaximal(Matched, nearDays, lines, es, StartBoard(lines), j, e);
    var _ := PairedFromFree(Matched, nearDays, lines, es, StartBoard(lines), j);
  }

  // ---------------------------------------------------------------- limits of the matcher, by example

  /** Cards on days 0 and 3, expenses on days 2 and 5, all of one business and one amount. */
  predicate Crossed(lines: seq<CardLine>, es: seq<ExpenseKey>, bizNo: Option<string>, amount: int) {
    && Truthy(bizNo)
    && |lines| == 2 && lines[0] == CardLine(1, 0, bizNo, amount) && lines[1] == CardLine(2, 3, bizNo, amount)
    && |es| == 2 && es[0] == ExpenseKey(1, 2, bizNo, amount) && es[1] == ExpenseKey(2, 5, bizNo, amount)
  }

  lemma CrossedHasNoExactPair(lines: seq<CardLine>, es: seq<ExpenseKey>, bizNo: Option<string>, amount: int, i: nat)
    requires Crossed(lines, es, bizNo, amount) && i < 2
    ensures AfterExact(lines, es, 3).verdicts[i].status == Unmatched
  {
    StartIsCoherent(lines);
    if AfterExact(lines, es, 3).verdicts[i].status != Unmatched {
      var e := PairedFromFree(Matched, 3, lines, es, StartBoard(lines), i);
      assert false;
    }
  }

  lemma NothingUsedYet(b: Board)
    requires Coherent(b) && |b.verdicts| == 2 && b.verdicts[0].status == b.verdicts[1].status == Unmatched
    ensures b.used == {}
  {
    forall id ensures id !in b.used {
      if id in b.used {
        var i :| 0 <= i < |b.verdicts| && b.verdicts[i].expenseId == Some(id);
        assert false;
      }
    }
  }

  /** Once the first expense is gone, no tier offers the first card anything. */
  lemma CrossedLeavesFirst(lines: seq<CardLine>, es: seq<ExpenseKey>, bizNo: Option<string>, amount: int,
        tier: MatchStatus, e: ExpenseKey)
    requires Crossed(lines, es, bizNo, amount)
    requires e in es && Compatible(tier, 3, lines[0], e)
    ensures e.id == 1
  {
  }

  lemma CrossedPairsSecond(lines: seq<CardLine>, es: seq<ExpenseKey>, bizNo: Option<string>, amount: int, b: Board)
    requires Crossed(lines, es, bizNo, amount)
    requires || (exists f ::
            f in es && PairedIn(MatchedNear, lines, b, 1, f)
            && Gap(lines[1].approvedOn, f.spentAt) <= Gap(lines[1].approvedOn, es[0].spentAt))
             || (exists j: nat :: j < |lines| && PairedIn(MatchedNear, lines, b, j, es[0])
                  && NoLater(Gap(lines[j].approvedOn, es[0].spentAt), lines[j].rowNo,
                      Gap(lines[1].approvedOn, es[0].spentAt), lines[1].rowNo))
    ensures PairedIn(MatchedNear, lines, b, 1, es[0])
  {
  }

  /**
   The half is reached: two near pairs fit (both are free when the tier starts), but the closest
   pair crosses them and the greedy order makes only that one.
   */
  lemma HalfIsReached(lines: seq<CardLine>, es: seq<ExpenseKey>, bizNo: Option<string>, amount: int)
    requires Crossed(lines, es, bizNo, amount)
    ensures Free(MatchedNear, 3, lines, es, AfterExact(lines, es, 3), 0, es[0])
    ensures Free(MatchedNear, 3, lines, es, AfterExact(lines, es, 3), 1, es[1])
    ensures PairedIn(MatchedNear, lines, MatchByScan(lines, es, 3), 1, es[0])
    ensures MatchByScan(lines, es, 3).verdicts[0].status == Unmatched
  {
    var a := AfterExact(lines, es, 3);
    CrossedHasNoExactPair(lines, es, bizNo, amount, 0);
    CrossedHasNoExactPair(lines, es, bizNo, amount, 1);
    assert a.used == {} by {
      TiersKeep(lines, es, 3);
      NothingUsedYet(a);
    }
    CrossedIsFree(lines, es, bizNo, amount, a);
    NearTierIsFair(lines, es, 3, 1, es[0]);
    CrossedPairsSecond(lines, es, bizNo, amount, MatchByScan(lines, es, 3));
    if MatchByScan(lines, es, 3).verdicts[0].status != Unmatched {
      var e := VerdictIsJustified(lines, es, 3, 0);
      CrossedLeavesFirst(lines, es, bizNo, amount, MatchByScan(lines, es, 3).verdicts[0].status, e);
      TiersKeep(lines, es, 3);
      assert false;
    }
  }

  lemma CrossedIsFree(lines: seq<CardLine>, es: seq<ExpenseKey>, bizNo: Option<string>, amount: int, a: Board)
    requires Crossed(lines, es, bizNo, amount)
    requires |a.verdicts| == 2 && a.verdicts[0].status == a.verdicts[1].status == Unmatched && a.used == {}
    ensures Free(MatchedNear, 3, lines, es, a, 0, es[0])
    ensures Free(MatchedNear, 3, lines, es, a, 1, es[1])
    ensures Free(MatchedNear, 3, lines, es, a, 1, es[0])
  {
  }

  /**
   The header of the file promises the CANDIDATE tier for pairs whose business number is missing
   on either side. The code tests for a missing value, and an expense whose typed number held no
   digit is stored as the empty string: such an expense is invisible to every tier for every
   line that does carry a number, and only for those.
   */
  lemma EmptyNumberIsNotMissing(nearDays: int, ln: CardLine, e: ExpenseKey)
    requires e.bizNo == Some("") && e.amount == ln.amount && e.spentAt == ln.approvedOn && ln.bizNo != Some("")
    ensures (exists tier :: Compatible(tier, nearDays, ln, e)) <==> ln.bizNo.None?
  {
    if ln.bizNo.None? {
      assert Compatible(Candidate, nearDays, ln, e);
    }
  }

  // ---------------------------------------------------------------- the verdicts in the fields themselves

  /**
   What a verdict says of the line and its expense, in their fields. MATCHED: the same non-empty
   number, amount and day. MATCHED_NEAR: the same non-empty number and amount, and the days as far
   apart as the note says, at most nearDays. CANDIDATE: the same amount and day, and the line or
   the expense without a number. UNMATCHED: no expense and no note.
   */
  ghost predicate FieldsFit(v: Verdict, ln: CardLine, es: seq<ExpenseKey>, nearDays: int) {
    match v.status
    case Unmatched => v.expenseId == None && v.note == None
    case Matched =>
      v.note == None && exists e ::
        && e in es && v.expenseId == Some(e.id)
        && ln.bizNo.Some? && ln.bizNo.value != "" && e.bizNo == ln.bizNo
        && e.amount == ln.amount && e.spentAt == ln.approvedOn
    case MatchedNear =>
      exists e ::
        && e in es && v.expenseId == Some(e.id)
        && ln.bizNo.Some? && ln.bizNo.value != "" && e.bizNo == ln.bizNo && e.amount == ln.amount
        && e.spentAt != ln.approvedOn && -nearDays <= ln.approvedOn - e.spentAt <= nearDays
        && v.note == Some(DaysApart(if e.spentAt < ln.approvedOn then ln.approvedOn - e.spentAt
                                    else e.spentAt - ln.approvedOn))
    case Candidate =>
      v.note == Some(NumberMissing) && exists e ::
        && e in es && v.expenseId == Some(e.id)
        && e.amount == ln.amount && e.spentAt == ln.approvedOn && (ln.bizNo == None || e.bizNo == None)
  }

  lemma JustifiedInFields(v: Verdict, ln: CardLine, es: seq<ExpenseKey>, nearDays: int, e: ExpenseKey)
    requires v.status != Unmatched && e in es && Compatible(v.status, nearDays, ln, e)
    requires v == Verdict(v.status, Some(e.id), NoteFor(v.status, Gap(ln.approvedOn, e.spentAt)))
    requires v.status == MatchedNear ==> e.spentAt != ln.approvedOn
    ensures FieldsFit(v, ln, es, nearDays)
  {
    match v.status
    case Unmatched =>
    case Matched => assert v.note == None;
    case MatchedNear => assert v.note == Some(DaysApart(Gap(ln.approvedOn, e.spentAt)));
    case Candidate => assert v.note == Some(NumberMissing);
  }

  /** Every verdict fits, in the fields. */
  lemma VerdictInFields(lines: seq<CardLine>, es: seq<ExpenseKey>, nearDays: int, i: nat)
    requires i < |lines|
    ensures FieldsFit(MatchByScan(lines, es, nearDays).verdicts[i], lines[i], es, nearDays)
  {
    TiersKeep(lines, es, nearDays);
    var v := MatchByScan(lines, es, nearDays).verdicts[i];
    if v.status != Unmatched {
      var e := VerdictIsJustified(lines, es, nearDays, i);
      NearGapIsPositive(lines, es, nearDays, i);
      JustifiedInFields(v, lines[i], es, nearDays, e);
    }
  }

  lemma IncompatibleInFields(nearDays: int, ln: CardLine, e: ExpenseKey)
    requires !Compatible(Matched, nearDays, ln, e) && !Compatible(MatchedNear, nearDays, ln, e)
    requires !Compatible(Candidate, nearDays, ln, e)
    ensures !(ln.bizNo.Some? && ln.bizNo.value != "" && e.bizNo == ln.bizNo && e.amount == ln.amount
              && (e.spentAt == ln.approvedOn || -nearDays <= ln.approvedOn - e.spentAt <= nearDays))
    ensures !(e.amount == ln.amount && e.spentAt == ln.approvedOn && (ln.bizNo == None || e.bizNo == None))
  {
  }

  /**
   A line and an expense that are both left over do not share a non-empty number and an amount on
   one day or within nearDays, nor an amount and a day while one of them has no number.
   */
  lemma LeftoversInFields(lines: seq<CardLine>, es: seq<ExpenseKey>, nearDays: int, b: Board, i: nat, e: ExpenseKey)
    requires b == MatchByScan(lines, es, nearDays) && i < |lines| && e in es
    requires b.verdicts[i].status == Unmatched && e.id in Leftover(es, b.used)
    ensures var ln := lines[i];
            && !(ln.bizNo.Some? && ln.bizNo.value != "" && e.bizNo == ln.bizNo && e.amount == ln.amount
                 && (e.spentAt == ln.approvedOn || -nearDays <= ln.approvedOn - e.spentAt <= nearDays))
            && !(e.amount == ln.amount && e.spentAt == ln.approvedOn && (ln.bizNo == None || e.bizNo == None))
  {
    LeftoverHas(es, b.used, e.id);
    LeftoversIncompatible(lines, es, nearDays, Matched, i, e);
    LeftoversIncompatible(lines, es, nearDays, MatchedNear, i, e);
    LeftoversIncompatible(lines, es, nearDays, Candidate, i, e);
    IncompatibleInFields(nearDays, lines[i], e);
  }

  lemma LeftoversIncompatible(lines: seq<CardLine>, es: seq<ExpenseKey>, nearDays: int, tier: MatchStatus, i: nat,
        e: ExpenseKey)
    requires tier != Unmatched && i < |lines| && e in es
    ensures var b := MatchByScan(lines, es, nearDays);
            b.verdicts[i].status == Unmatched && e.id !in b.used ==> !Compatible(tier, nearDays, lines[i], e)
  {
    if Compatible(tier, nearDays, lines[i], e) {
      NothingLeftToMatch(lines, es, nearDays, tier, i, e);
    }
  }

  /** The leftover list keeps the order of the expenses. */
  lemma {:induction false} LeftoverInOrder(es: seq<ExpenseKey>, used: set<int>, a: nat, b: nat) returns (i: nat, j: nat)
    requires a < b < |Leftover(es, used)|
    ensures i < j < |es| && es[i].id == Leftover(es, used)[a] && es[j].id == Leftover(es, used)[b]
  {
    var n := |es| - 1;
    var init := Leftover(es[..n], used);
    if b < |init| {
      i, j := LeftoverInOrder(es[..n], used, a, b);
    } else {
      i := LeftoverPlace(es[..n], used, a);
      j := n;
    }
  }

  lemma {:induction false} LeftoverPlace(es: seq<ExpenseKey>, used: set<int>, a: nat) returns (i: nat)
    requires a < |Leftover(es, used)|
    ensures i < |es| && es[i].id == Leftover(es, used)[a]
  {
    var n := |es| - 1;
    if a < |Leftover(es[..n], used)| {
      i := LeftoverPlace(es[..n], used, a);
    } else {
      i := n;
    }
  }
}
