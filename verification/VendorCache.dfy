/**
 The cache of vendor statuses: fresh for thirty days, and better stale than unknown. A lookup
 writes into its caller's transaction; whether the caller commits or rolls back decides whether an
 answer is kept.
 */
module VendorCache {
  import opened Common
  import opened Rules

  const CACHE_TTL: int := 30 * 24 * 60 * 60

  datatype Check = Check(status: VendorStatus, checkedAt: int)

  /**
   What happens to the cache: a lookup of a number at a time in seconds, with what the tax office
   would answer if asked, None for any failure; and the end of the transaction it is part of.
   */
  datatype Event = Lookup(bizNo: string, now: int, reply: Option<string>) | Commit | Rollback

  /** The office's codes; a number it does not know has another code or none. */
  function StatusOfCode(code: string): (v: VendorStatus)
    ensures v != Unverified
  {
    if code == "01" then Active else if code == "02" then Suspended else if code == "03" then Closed else Unregistered
  }

  predicate Fresh(checks: map<string, Check>, bizNo: string, now: int) {
    bizNo in checks && checks[bizNo].status != Unverified && checks[bizNo].checkedAt > now - CACHE_TTL
  }

  // ---------------------------------------------------------------- the tables after a history of events

  /** The committed table, and the table as the open transaction sees it. */
  datatype Tables = Tables(saved: map<string, Check>, seen: map<string, Check>)

  function AfterLookup(seen: map<string, Check>, bizNo: string, now: int, reply: Option<string>): map<string, Check> {
    if Fresh(seen, bizNo, now) then seen
    else if reply.Some? then seen[bizNo := Check(StatusOfCode(reply.value), now)]
    else if bizNo in seen && seen[bizNo].status != Unverified then seen
    else seen[bizNo := Check(Unverified, now)]
  }

  ghost function TablesAfter(events: seq<Event>): Tables {
    if events == [] then Tables(map[], map[])
    else
      var t := TablesAfter(events[..|events| - 1]);
      match events[|events| - 1]
      case Lookup(bizNo, now, reply) => t.(seen := AfterLookup(t.seen, bizNo, now, reply))
      case Commit => t.(saved := t.seen)
      case Rollback => t.(seen := t.saved)
  }

  // ---------------------------------------------------------------- what became of a lookup

  /** Event n is a lookup of the number. */
  predicate LooksUp(events: seq<Event>, n: nat, bizNo: string) {
    n < |events| && events[n].Lookup? && events[n].bizNo == bizNo
  }

  /** The lookup went out to the tax office. */
  ghost predicate Asked(events: seq<Event>, n: nat)
    requires n < |events| && events[n].Lookup?
  {
    !Fresh(TablesAfter(events[..n]).seen, events[n].bizNo, events[n].now)
  }

  /** Event n is a lookup of the number that got an answer. */
  ghost predicate Answered(events: seq<Event>, n: nat, bizNo: string) {
    LooksUp(events, n, bizNo) && Asked(events, n) && events[n].reply.Some?
  }

  /** A commit after event n comes before any rollback after it. */
  ghost predicate Committed(events: seq<Event>, n: nat) {
    exists k :: n < k < |events| && events[k] == Commit && forall m :: n < m < k ==> events[m] != Rollback
  }

  /** Event n has not been rolled back: it was committed, or its transaction is still open. */
  ghost predicate Kept(events: seq<Event>, n: nat) {
    Committed(events, n) || forall m :: n < m < |events| ==> events[m] != Rollback
  }

  lemma CommittedAfter(events: seq<Event>, x: Event, n: nat)
    requires n < |events|
    ensures Committed(events + [x], n) <==> Committed(events, n) || (x == Commit && Kept(events, n))
  {
    var all := events + [x];
    if Committed(events, n) {
      var k :| n < k < |events| && events[k] == Commit && forall m :: n < m < k ==> events[m] != Rollback;
      assert all[k] == Commit && forall m :: n < m < k ==> all[m] != Rollback;
    } else if x == Commit && Kept(events, n) {
      assert all[|events|] == Commit && forall m :: n < m < |events| ==> all[m] != Rollback;
    }
    if Committed(all, n) {
      var k :| n < k < |all| && all[k] == Commit && forall m :: n < m < k ==> all[m] != Rollback;
      forall m | n < m < k ensures events[m] != Rollback {
        assert all[m] == events[m];
      }
    }
  }

  lemma KeptAfter(events: seq<Event>, x: Event, n: nat)
    requires n < |events|
    ensures Kept(events + [x], n) <==> if x == Rollback then Committed(events, n) else Kept(events, n)
  {
    CommittedAfter(events, x, n);
    var all := events + [x];
    assert all[|events|] == x && forall m :: n < m < |events| ==> all[m] == events[m];
  }

  // ---------------------------------------------------------------- the most recent answer

  /** The most recent answer among the committed lookups, and among those not rolled back. */
  datatype Latest = Latest(saved: Option<nat>, seen: Option<nat>)

  ghost function LatestAnswer(events: seq<Event>, bizNo: string): (l: Latest)
    ensures l.saved.Some? ==> l.saved.value < |events|
    ensures l.seen.Some? ==> l.seen.value < |events|
  {
    if events == [] then Latest(None, None)
    else
      var n := |events| - 1;
      var l := LatestAnswer(events[..n], bizNo);
      match events[n]
      case Lookup(_, _, _) => if Answered(events, n, bizNo) then l.(seen := Some(n)) else l
      case Commit => l.(saved := l.seen)
      case Rollback => l.(seen := l.saved)
  }

  /** Found is the last event of the history that is an answer and was committed (or, not rolled back). */
  ghost predicate IsLastAnswer(events: seq<Event>, bizNo: string, found: Option<nat>, committed: bool) {
    && (found.Some? ==> Counts(events, found.value, bizNo, committed))
    && forall m: nat :: Counts(events, m, bizNo, committed) ==> found.Some? && m <= found.value
  }

  ghost predicate Counts(events: seq<Event>, n: nat, bizNo: string, committed: bool) {
    Answered(events, n, bizNo) && if committed then Committed(events, n) else Kept(events, n)
  }

  lemma AnsweredBefore(events: seq<Event>, x: Event, n: nat, bizNo: string)
    requires n < |events|
    ensures Answered(events + [x], n, bizNo) <==> Answered(events, n, bizNo)
  {
    assert (events + [x])[n] == events[n] && (events + [x])[..n] == events[..n];
  }

  /** How the lookups that count change with one more event. */
  lemma CountsAfter(events: seq<Event>, x: Event, n: nat, bizNo: string)
    requires n < |events|
    ensures Counts(events + [x], n, bizNo, false) <==> Counts(events, n, bizNo, x == Rollback)
    ensures Counts(events + [x], n, bizNo, true) <==>
            if x == Commit then Counts(events, n, bizNo, false) else Counts(events, n, bizNo, true)
  {
    AnsweredBefore(events, x, n, bizNo);
    CommittedAfter(events, x, n);
    KeptAfter(events, x, n);
  }

  /** The newest event is kept and not committed. */
  lemma NewestCounts(events: seq<Event>, bizNo: string)
    requires events != []
    ensures Counts(events, |events| - 1, bizNo, false) <==> Answered(events, |events| - 1, bizNo)
    ensures !Counts(events, |events| - 1, bizNo, true)
  {
  }

  lemma LatestAnswerGrows(events: seq<Event>, x: Event, bizNo: string)
    requires var l := LatestAnswer(events, bizNo);
             IsLastAnswer(events, bizNo, l.saved, true) && IsLastAnswer(events, bizNo, l.seen, false)
    ensures var l := LatestAnswer(events + [x], bizNo);
            IsLastAnswer(events + [x], bizNo, l.saved, true) && IsLastAnswer(events + [x], bizNo, l.seen, false)
  {
    var all := events + [x];
    assert all[..|events|] == events && all[|events|] == x;
    forall n: nat | n < |events| {
      CountsAfter(events, x, n, bizNo);
    }
    NewestCounts(all, bizNo);
  }

  /** The recursive definition says what it should: the last answer not rolled back, and the last one committed. */
  lemma {:induction false} LatestAnswerIs(events: seq<Event>, bizNo: string)
    ensures var l := LatestAnswer(events, bizNo);
            IsLastAnswer(events, bizNo, l.saved, true) && IsLastAnswer(events, bizNo, l.seen, false)
  {
    if events != [] {
      var n := |events| - 1;
      LatestAnswerIs(events[..n], bizNo);
      LatestAnswerGrows(events[..n], events[n], bizNo);
      assert events[..n] + [events[n]] == events;
    }
  }

  /** A table's row of a number is that answer with its time, or no status is known. */
  ghost predicate HoldsAnswer(events: seq<Event>, checks: map<string, Check>, bizNo: string, found: Option<nat>) {
    match found
    case None => bizNo in checks ==> checks[bizNo].status == Unverified
    case Some(n) =>
      && n < |events| && events[n].Lookup? && events[n].reply.Some? && bizNo in checks
      && checks[bizNo] == Check(StatusOfCode(events[n].reply.value), events[n].now)
  }

  /** Committed table and open view hold exactly the last answer that was committed, or not rolled back. */
  lemma {:induction false} TablesHoldLastAnswer(events: seq<Event>, bizNo: string)
    ensures HoldsAnswer(events, TablesAfter(events).saved, bizNo, LatestAnswer(events, bizNo).saved)
    ensures HoldsAnswer(events, TablesAfter(events).seen, bizNo, LatestAnswer(events, bizNo).seen)
  {
    if events != [] {
      TablesHoldLastAnswer(events[..|events| - 1], bizNo);
    }
  }

  /** What a reader of the history would say: the last answer not rolled back, or that there is none. */
  ghost function LastKnown(events: seq<Event>, bizNo: string): VendorStatus {
    match LatestAnswer(events, bizNo).seen
    case None => Unverified
    case Some(n) => if events[n].Lookup? && events[n].reply.Some? then StatusOfCode(events[n].reply.value)
        else Unverified
  }

  // ---------------------------------------------------------------- what is promised, and exactly when

  /** The last answer for a number is known afterwards if and only if its lookup was not rolled back. */
  lemma ForgottenExactlyIfRolledBack(events: seq<Event>, n: nat, bizNo: string)
    requires Answered(events, n, bizNo) && forall m: nat :: n < m ==> !Answered(events, m, bizNo)
    ensures LatestAnswer(events, bizNo).seen == Some(n) <==> Kept(events, n)
  {
    LatestAnswerIs(events, bizNo);
    assert Kept(events, n) ==> Counts(events, n, bizNo, false);
  }

  predicate ClockRuns(events: seq<Event>) {
    forall m, n :: 0 <= m < n < |events| && events[m].Lookup? && events[n].Lookup? ==> events[m].now <= events[n].now
  }

  /** What was kept up to a later event was kept up to an earlier one. */
  lemma {:induction false} KeptEarlier(events: seq<Event>, k: nat, n: nat, l: nat)
    requires k < n <= l <= |events| && Kept(events[..l], k)
    ensures Kept(events[..n], k)
    decreases l
  {
    if n < l {
      var shorter := events[..l - 1];
      assert shorter + [events[l - 1]] == events[..l];
      KeptAfter(shorter, events[l - 1], k);
      KeptEarlier(events, k, n, l - 1);
    }
  }

  lemma AnsweredWithin(events: seq<Event>, l: nat, n: nat, bizNo: string)
    requires n < l <= |events|
    ensures Answered(events[..l], n, bizNo) <==> Answered(events, n, bizNo)
  {
    assert events[..l][..n] == events[..n];
  }

  /** Whatever a lookup that went out still saw as the last answer was older than the time to live. */
  lemma AskedWhenStale(events: seq<Event>, k: nat, n: nat, bizNo: string)
    requires ClockRuns(events) && k < n && LooksUp(events, n, bizNo) && Asked(events, n)
    requires Answered(events, k, bizNo) && Kept(events[..n], k)
    ensures events[k].now <= events[n].now - CACHE_TTL
  {
    var past := events[..n];
    LatestAnswerIs(past, bizNo);
    TablesHoldLastAnswer(past, bizNo);
    AnsweredWithin(events, n, k, bizNo);
    assert Counts(past, k, bizNo, false);
    var last := LatestAnswer(past, bizNo).seen.value;
    assert past[last] == events[last];
  }

  /** After an answer that was not rolled back the office is left alone for the time to live. */
  lemma NoFetchWithinTtl(events: seq<Event>, m: nat, n: nat, bizNo: string)
    requires ClockRuns(events) && m < n && Answered(events, m, bizNo) && LooksUp(events, n, bizNo)
    requires Kept(events[..n], m) && Asked(events, n)
    ensures events[n].now >= events[m].now + CACHE_TTL
  {
    AskedWhenStale(events, m, n, bizNo);
  }

  /**
   The exact condition: within the time to live of the last answer, the next lookup goes out to the
   office again if and only if that answer's lookup was rolled back.
   */
  lemma AskedAgainExactlyIfRolledBack(events: seq<Event>, m: nat, n: nat, bizNo: string)
    requires ClockRuns(events) && m < n && Answered(events, m, bizNo) && LooksUp(events, n, bizNo)
    requires forall k: nat :: m < k < n ==> !Answered(events, k, bizNo)
    requires events[n].now < events[m].now + CACHE_TTL
    ensures Asked(events, n) <==> !Kept(events[..n], m)
  {
    if Kept(events[..n], m) {
      if Asked(events, n) {
        NoFetchWithinTtl(events, m, n, bizNo);
      }
    } else if !Asked(events, n) {
      FreshRowWasKept(events, n, bizNo);
      var k: nat :| k < n && Answered(events, k, bizNo) && Kept(events[..n], k)
          && events[k].now > events[n].now - CACHE_TTL;
      KeptEarlier(events, k, m, n);
      AskedWhenStale(events, k, m, bizNo);
    }
  }

  /** A lookup answered from the cache sees a fresh answer that was not rolled back. */
  lemma FreshRowWasKept(events: seq<Event>, n: nat, bizNo: string)
    requires LooksUp(events, n, bizNo) && !Asked(events, n)
    ensures exists k: nat ::
              k < n && Answered(events, k, bizNo) && Kept(events[..n], k) && events[k].now > events[n].now - CACHE_TTL
  {
    var past := events[..n];
    LatestAnswerIs(past, bizNo);
    TablesHoldLastAnswer(past, bizNo);
    var k := LatestAnswer(past, bizNo).seen.value;
    AnsweredWithin(events, n, k, bizNo);
    assert past[k] == events[k];
  }

  /** Lookups without an answer and commits, whatever their number, leave every known row as it is. */
  lemma {:induction false} FailuresForgetNothing(events: seq<Event>, more: seq<Event>, bizNo: string)
    requires forall i :: 0 <= i < |more| ==> more[i] == Commit || (more[i].Lookup? && more[i].reply.None?)
    requires bizNo in TablesAfter(events).seen && TablesAfter(events).seen[bizNo].status != Unverified
    ensures bizNo in TablesAfter(events + more).seen
    ensures TablesAfter(events + more).seen[bizNo] == TablesAfter(events).seen[bizNo]
    decreases |more|
  {
    if more == [] {
      assert events + more == events;
    } else {
      FailuresForgetNothing(events, more[..|more| - 1], bizNo);
      assert (events + more)[..|events + more| - 1] == events + more[..|more| - 1];
    }
  }

  /**
   An answer is received, its pipeline rolls back, and the next lookup asks again and, left without
   an answer, knows nothing.
   */
  lemma AnswerCanBeForgotten(bizNo: string, now: int, later: int)
    ensures var events := [Lookup(bizNo, now, Some("01")), Rollback, Lookup(bizNo, later, None)];
            Answered(events, 0, bizNo) && Asked(events, 2) && LastKnown(events, bizNo) == Unverified
  {
    var events := [Lookup(bizNo, now, Some("01")), Rollback, Lookup(bizNo, later, None)];
    assert events[..0] == [] && events[..1][..0] == [] && events[..2][..1] == events[..1];
    assert TablesAfter(events[..1]).saved == map[];
    assert TablesAfter(events[..2]) == Tables(map[], map[]);
    assert LatestAnswer(events[..1], bizNo).saved == None;
    assert LatestAnswer(events[..2], bizNo) == Latest(None, None);
  }

  // ---------------------------------------------------------------- the cache itself

  class Cache {
    // The table as the open transaction sees it, and as it was last committed.
    var checks: map<string, Check>
    var saved: map<string, Check>
    ghost var history: seq<Event>

    ghost predicate Valid()
      reads this
    {
      TablesAfter(history) == Tables(saved, checks)
    }

    constructor ()
      ensures Valid() && history == []
    {
      checks, saved, history := map[], map[], [];
    }

    method Upsert(bizNo: string, status: VendorStatus, now: int)
      modifies this`checks
      ensures checks == old(checks)[bizNo := Check(status, now)]
    {
      if bizNo !in checks {
        checks := checks[bizNo := Check(status, now)];
      } else {
        var row := checks[bizNo];
        row := row.(status := status);
        row := row.(checkedAt := now);
        checks := checks[bizNo := row];
      }
    }

    /**
     A lookup answers with the most recent answer for the number that was not rolled back, this
     lookup included, and with UNVERIFIED exactly if there is none.
     */
    method CheckVendorStatus(bizNo: string, now: int, reply: Option<string>) returns (status: VendorStatus)
      requires Valid()
      modifies this`checks, this`history
      ensures Valid() && history == old(history) + [Lookup(bizNo, now, reply)]
      ensures status == LastKnown(history, bizNo)
      ensures status == Unverified <==> forall n: nat :: !Counts(history, n, bizNo, false)
      ensures var known := bizNo in old(checks) && old(checks)[bizNo].status != Unverified;
              if known && now - old(checks)[bizNo].checkedAt < 2592000 then
                status == old(checks)[bizNo].status && checks == old(checks)
              else if reply == None then
                && status == (if known then old(checks)[bizNo].status else Unverified)
                && checks == if known then old(checks) else old(checks)[bizNo := Check(Unverified, now)]
              else
                && status == (if reply == Some("01") then Active else if reply == Some("02") then Suspended
                              else if reply == Some("03") then Closed else Unregistered)
                && checks == old(checks)[bizNo := Check(status, now)]
    {
      ghost var events := history + [Lookup(bizNo, now, reply)];
      assert events[..|history|] == history;
      TablesHoldLastAnswer(history, bizNo);
      TablesHoldLastAnswer(events, bizNo);
      LatestAnswerIs(events, bizNo);
      if bizNo in checks && checks[bizNo].status != Unverified && checks[bizNo].checkedAt > now - CACHE_TTL {
        status := checks[bizNo].status;
      } else if reply.None? {
        if bizNo in checks && checks[bizNo].status != Unverified {
          status := checks[bizNo].status;
        } else {
          Upsert(bizNo, Unverified, now);
          status := Unverified;
        }
      } else {
        status := StatusOfCode(reply.value);
        Upsert(bizNo, status, now);
      }
      history := events;
    }

    /** The caller's transaction ends: what its lookups wrote stays, or the committed table is back. */
    method EndTransaction(commits: bool)
      requires Valid()
      modifies this
      ensures Valid() && history == old(history) + [if commits then Commit else Rollback]
      ensures checks == if commits then old(checks) else old(saved)
    {
      ghost var event := if commits then Commit else Rollback;
      assert (history + [event])[..|history|] == history;
      history := history + [event];
      if commits {
        saved := checks;
      } else {
        checks := saved;
      }
    }
  }
}
