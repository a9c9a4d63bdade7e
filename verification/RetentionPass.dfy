/** The retention pass over the ledger, with its stopping points: aggregate every old day, then prune. */
module RetentionPass {
  import opened Sequences
  import opened UsageLedger

  // ---- The oldest detail ----

  predicate IsOld(r: Row, before: int) {
    !r.aggregated && r.ts < before
  }

  ghost predicate IsOldest(rows: seq<Row>, before: int, found: Option<int>) {
    if found.None? then forall r :: r in rows ==> !IsOld(r, before)
    else
      && (exists r :: r in rows && IsOld(r, before) && r.ts == found.value)
      && (forall r :: r in rows && IsOld(r, before) ==> found.value <= r.ts)
  }

  /** `_find_oldest_detail_ts`. */
  method FindOldestDetail(items: seq<Row>, before: int) returns (oldest: Option<int>)
    ensures IsOldest(items, before, oldest)
  {
    oldest := None;
    for i := 0 to |items|
      invariant IsOldest(items[..i], before, oldest)
    {
      var item := items[i];
      assert items[..i + 1] == items[..i] + [item];
      if !item.aggregated && item.ts < before && (oldest.None? || item.ts < oldest.value) {
        oldest := Some(item.ts);
      }
    }
    assert items[..|items|] == items;
  }

  /** The oldest time depends on the details only. */
  lemma SameDetailsSameOldest(a: seq<Row>, b: seq<Row>, before: int, x: Option<int>, y: Option<int>)
    requires Details(a) == Details(b) && IsOldest(a, before, x) && IsOldest(b, before, y)
    ensures x == y
  {
    forall r ensures (r in a && IsOld(r, before)) <==> (r in b && IsOld(r, before)) {
      assert r in Details(a) <==> r in Details(b);
    }
  }

  /** The oldest detail before a time, as a function. */
  function OldestDetail(rows: seq<Row>, before: int): (r: Option<int>)
    ensures IsOldest(rows, before, r)
  {
    if rows == [] then None
    else
      var oldest, last := OldestDetail(rows[..|rows| - 1], before), rows[|rows| - 1];
      assert rows == rows[..|rows| - 1] + [last];
      if IsOld(last, before) && (oldest.None? || last.ts < oldest.value) then Some(last.ts) else oldest
  }

  // ---- Every old detail is replaced ----

  lemma CandidateOnItsDay(c: Calendar, rows: seq<Row>, r: Row)
    requires r in rows && InDay(r, DayOf(r.ts))
    ensures AggregateRow(c, rows, DayOf(r.ts), r.group) in DayCandidates(c, rows, DayOf(r.ts))
  {
    var day := DayOf(r.ts);
    DayGroupsExact(rows, day, r.group);
    var groups := DayGroups(rows, day);
    var i :| 0 <= i < |groups| && groups[i] == r.group;
    assert DayCandidates(c, rows, day)[i] == AggregateRow(c, rows, day, r.group);
  }

  lemma CandidateOfDay(c: Calendar, rows: seq<Row>, from: int, until: int, day: int, m: Row)
    requires from <= day < until && m in DayCandidates(c, rows, day)
    ensures m in Candidates(c, rows, from, until)
  {
    CandidatesSplit(c, rows, from, day, until);
    InMiddle(Candidates(c, rows, from, day), DayCandidates(c, rows, day), Candidates(c, rows, day + 1, until), m);
  }

  lemma InMiddle(a: seq<Row>, b: seq<Row>, d: seq<Row>, m: Row)
    requires m in b
    ensures m in a + (b + d)
  {
  }

  lemma CandidateOfDetail(c: Calendar, rows: seq<Row>, from: int, until: int, r: Row)
    requires r in rows && InDay(r, DayOf(r.ts)) && from <= DayOf(r.ts) < until
    ensures AggregateRow(c, rows, DayOf(r.ts), r.group) in Candidates(c, rows, from, until)
  {
    CandidateOnItsDay(c, rows, r);
    CandidateOfDay(c, rows, from, until, DayOf(r.ts), AggregateRow(c, rows, DayOf(r.ts), r.group));
  }

  /** Every detail that the prune deletes falls on a day of the pass: the pass starts on the day of the
      oldest old detail and ends on the day of the cutoff, which is a midnight. */
  lemma PrunedDaysAreAggregated(rows: seq<Row>, oldest: int, cutoffDay: int, r: Row)
    requires IsOldest(rows, cutoffDay * DAY_SECONDS, Some(oldest))
    requires r in rows && IsOld(r, cutoffDay * DAY_SECONDS)
    ensures DayOf(oldest) <= DayOf(r.ts) < cutoffDay
  {
  }

  lemma {:induction false} CandidatesAreAggregates(c: Calendar, rows: seq<Row>, from: int, until: int)
    ensures forall m :: m in Candidates(c, rows, from, until) ==> m.aggregated
    decreases until - from
  {
    if from < until {
      CandidatesAreAggregates(c, rows, from + 1, until);
    }
  }

  lemma OldDetailIsReplaced(c: Calendar, rows: seq<Row>, oldest: int, cutoffDay: int, all: seq<Row>, r: Row)
    requires LedgerOk(c, rows) && LedgerOk(c, all)
    requires IsOldest(rows, cutoffDay * DAY_SECONDS, Some(oldest))
    requires forall m :: m in Candidates(c, rows, DayOf(oldest), cutoffDay) ==> HasTrace(all, m.trace)
    requires r in rows && IsOld(r, cutoffDay * DAY_SECONDS)
    ensures HasAggregate(all, DayKey(c, r.ts), r.group)
  {
    assert RowOk(c, r);
    PrunedDaysAreAggregated(rows, oldest, cutoffDay, r);
    CandidateOfDetail(c, rows, DayOf(oldest), cutoffDay, r);
    TraceFindsAggregate(c, all, DayOf(r.ts), r.group);
  }

  lemma PassReplacesDetails(c: Calendar, rows: seq<Row>, oldest: int, cutoffDay: int, all: seq<Row>)
    requires LedgerOk(c, rows) && LedgerOk(c, all)
    requires IsOldest(rows, cutoffDay * DAY_SECONDS, Some(oldest))
    requires all == AppendMissing(rows, Candidates(c, rows, DayOf(oldest), cutoffDay))
    ensures Replaced(c, all, cutoffDay * DAY_SECONDS)
  {
    CandidatesAreAggregates(c, rows, DayOf(oldest), cutoffDay);
    AppendMissingKeepsDetails(rows, Candidates(c, rows, DayOf(oldest), cutoffDay));
    MissingIsFound(rows, Candidates(c, rows, DayOf(oldest), cutoffDay));
    forall r | r in all && !r.aggregated && r.ts < cutoffDay * DAY_SECONDS
      ensures HasAggregate(all, DayKey(c, r.ts), r.group)
    {
      assert r in Details(all) && r in Details(rows);
      OldDetailIsReplaced(c, rows, oldest, cutoffDay, all, r);
    }
  }

  // ---- The pass as a function of the ledger ----

  /** The aggregate rows a pass writes one by one, each only if its trace id is missing. */
  function Calls(c: Calendar, rows: seq<Row>, oldest: Option<int>, cutoffDay: int): seq<Row> {
    if oldest.None? then [] else Candidates(c, rows, DayOf(oldest.value), cutoffDay)
  }

  /** The ledger after a pass that stopped when `k` of its calls were done. */
  function Stopped(c: Calendar, rows: seq<Row>, oldest: Option<int>, cutoffDay: int, k: nat): seq<Row>
    requires k <= |Calls(c, rows, oldest, cutoffDay)|
  {
    AppendMissing(rows, Calls(c, rows, oldest, cutoffDay)[..k])
  }

  function Completed(c: Calendar, rows: seq<Row>, oldest: Option<int>, cutoffDay: int): seq<Row> {
    Prune(AppendMissing(rows, Calls(c, rows, oldest, cutoffDay)), cutoffDay * DAY_SECONDS)
  }

  /** A pass that does `budget` steps at most: a step is one aggregate row looked at, or the final prune. */
  function Pass(c: Calendar, rows: seq<Row>, cutoffDay: int, budget: nat): seq<Row> {
    var oldest := OldestDetail(rows, cutoffDay * DAY_SECONDS);
    if |Calls(c, rows, oldest, cutoffDay)| < budget then Completed(c, rows, oldest, cutoffDay)
    else Stopped(c, rows, oldest, cutoffDay, budget)
  }

  lemma CallsAreDue(c: Calendar, rows: seq<Row>, oldest: Option<int>, cutoffDay: int)
    requires LedgerOk(c, rows)
    ensures oldest.Some? ==> forall m :: m in Calls(c, rows, oldest, cutoffDay) ==> IsDue(c, rows, DayOf(oldest.value), cutoffDay, m)
    ensures forall m :: m in Calls(c, rows, oldest, cutoffDay) ==> m.aggregated && RowOk(c, m)
  {
    if oldest.Some? {
      CandidatesAreDue(c, rows, DayOf(oldest.value), cutoffDay);
    }
  }

  /** Stopping after any call leaves every total as it was. */
  lemma StoppedKeepsTotals(c: Calendar, rows: seq<Row>, oldest: Option<int>, cutoffDay: int, k: nat, account: string, channel: string)
    requires LedgerOk(c, rows) && k <= |Calls(c, rows, oldest, cutoffDay)|
    ensures LedgerOk(c, Stopped(c, rows, oldest, cutoffDay, k))
    ensures LedgerTotal(c, Stopped(c, rows, oldest, cutoffDay, k), account, channel) == LedgerTotal(c, rows, account, channel)
  {
    if oldest.Some? {
      CallsAreDue(c, rows, oldest, cutoffDay);
      PassKeepsTotals(c, rows, Calls(c, rows, oldest, cutoffDay)[..k], DayOf(oldest.value), cutoffDay, account, channel);
    }
  }

  lemma {:induction false} PruneKeepsTraces(rows: seq<Row>, cutoff: int)
    requires OneTraceEach(rows)
    ensures OneTraceEach(Prune(rows, cutoff))
  {
    if rows != [] {
      PruneKeepsTraces(rows[1..], cutoff);
      forall r | r in Prune(rows[1..], cutoff) && r.aggregated && rows[0].aggregated ensures r.trace != rows[0].trace {
        assert r in rows[1..];
      }
    }
  }

  lemma PruneKeepsLedgerOk(c: Calendar, rows: seq<Row>, cutoff: int)
    requires LedgerOk(c, rows)
    ensures LedgerOk(c, Prune(rows, cutoff))
  {
    PruneKeepsTraces(rows, cutoff);
  }

  /** A completed pass leaves every total as it was. */
  lemma CompletedKeepsTotals(c: Calendar, rows: seq<Row>, oldest: Option<int>, cutoffDay: int, account: string, channel: string)
    requires LedgerOk(c, rows) && IsOldest(rows, cutoffDay * DAY_SECONDS, oldest)
    ensures LedgerOk(c, Completed(c, rows, oldest, cutoffDay))
    ensures LedgerTotal(c, Completed(c, rows, oldest, cutoffDay), account, channel) == LedgerTotal(c, rows, account, channel)
  {
    var calls := Calls(c, rows, oldest, cutoffDay);
    assert calls[..|calls|] == calls;
    var all := AppendMissing(rows, calls);
    StoppedKeepsTotals(c, rows, oldest, cutoffDay, |calls|, account, channel);
    if oldest.Some? {
      PassReplacesDetails(c, rows, oldest.value, cutoffDay, all);
    }
    PruneKeepsTotals(c, all, cutoffDay * DAY_SECONDS, account, channel);
    PruneKeepsLedgerOk(c, all, cutoffDay * DAY_SECONDS);
  }

  /** Stopped or not, a pass leaves the ledger well formed and every total as it was. */
  lemma PassKeepsLedger(c: Calendar, rows: seq<Row>, cutoffDay: int, budget: nat, account: string, channel: string)
    requires LedgerOk(c, rows)
    ensures LedgerOk(c, Pass(c, rows, cutoffDay, budget))
    ensures LedgerTotal(c, Pass(c, rows, cutoffDay, budget), account, channel) == LedgerTotal(c, rows, account, channel)
  {
    var oldest := OldestDetail(rows, cutoffDay * DAY_SECONDS);
    if |Calls(c, rows, oldest, cutoffDay)| < budget {
      CompletedKeepsTotals(c, rows, oldest, cutoffDay, account, channel);
    } else {
      StoppedKeepsTotals(c, rows, oldest, cutoffDay, budget, account, channel);
    }
  }

  /** A completed pass leaves exactly one aggregate row for every old detail it replaced, and no old detail. */
  lemma CompletedHasOneAggregate(c: Calendar, rows: seq<Row>, oldest: Option<int>, cutoffDay: int, r: Row)
    requires LedgerOk(c, rows) && IsOldest(rows, cutoffDay * DAY_SECONDS, oldest)
    requires r in rows && IsOld(r, cutoffDay * DAY_SECONDS)
    ensures var out := Completed(c, rows, oldest, cutoffDay);
            && r !in out
            && exists i :: 0 <= i < |out| && IsAggregateOf(out[i], DayKey(c, r.ts), r.group) &&
                 forall j :: 0 <= j < |out| && IsAggregateOf(out[j], DayKey(c, r.ts), r.group) ==> j == i
  {
    var calls := Calls(c, rows, oldest, cutoffDay);
    assert calls[..|calls|] == calls;
    StoppedKeepsTotals(c, rows, oldest, cutoffDay, |calls|, "", "");
    var all := AppendMissing(rows, calls);
    MissingIsFound(rows, calls);
    OldDetailIsReplaced(c, rows, oldest.value, cutoffDay, all, r);
    var a :| a in all && a.aggregated && a.day == DayKey(c, r.ts) && a.group == r.group;
    PruneKeepsLedgerOk(c, all, cutoffDay * DAY_SECONDS);
    assert a in Completed(c, rows, oldest, cutoffDay);
    AggregateIsUnique(c, Completed(c, rows, oldest, cutoffDay), DayKey(c, r.ts), r.group, a);
  }

  predicate IsAggregateOf(r: Row, day: string, g: Group) {
    r.aggregated && r.day == day && r.group == g
  }

  lemma AggregateIsUnique(c: Calendar, rows: seq<Row>, day: string, g: Group, a: Row)
    requires LedgerOk(c, rows) && a in rows && IsAggregateOf(a, day, g)
    ensures exists i :: 0 <= i < |rows| && IsAggregateOf(rows[i], day, g) &&
              forall j :: 0 <= j < |rows| && IsAggregateOf(rows[j], day, g) ==> j == i
  {
    var i :| 0 <= i < |rows| && rows[i] == a;
    assert RowOk(c, a);
    forall j | 0 <= j < |rows| && IsAggregateOf(rows[j], day, g) ensures j == i {
      assert RowOk(c, rows[j]);
      assert rows[j].trace == rows[i].trace;
    }
  }

  // ---- Interrupted and repeated passes ----

  lemma CallsOfSameDetails(c: Calendar, a: seq<Row>, b: seq<Row>, oldest: Option<int>, cutoffDay: int)
    requires Details(a) == Details(b)
    ensures Calls(c, a, oldest, cutoffDay) == Calls(c, b, oldest, cutoffDay)
  {
    if oldest.Some? {
      SameDetailsSamePass(c, a, b, DayOf(oldest.value), cutoffDay);
    }
  }

  lemma StoppedKeepsDetails(c: Calendar, rows: seq<Row>, oldest: Option<int>, cutoffDay: int, k: nat)
    requires k <= |Calls(c, rows, oldest, cutoffDay)|
    ensures Details(Stopped(c, rows, oldest, cutoffDay, k)) == Details(rows)
  {
    var calls := Calls(c, rows, oldest, cutoffDay);
    if oldest.Some? {
      CandidatesAreAggregates(c, rows, DayOf(oldest.value), cutoffDay);
    }
    forall m | m in calls[..k] ensures m.aggregated {
      assert m in calls;
    }
    AppendMissingKeepsDetails(rows, calls[..k]);
  }

  lemma LaterCutoffSameOldest(rows: seq<Row>, a: int, b: int, first: int, oldest: Option<int>)
    requires a <= b && IsOldest(rows, a, Some(first)) && IsOldest(rows, b, oldest)
    ensures oldest == Some(first)
  {
    var r :| r in rows && IsOld(r, a) && r.ts == first;
    assert IsOld(r, b);
  }

  lemma EarlierCallsComeFirst(c: Calendar, rows: seq<Row>, oldest: int, stoppedDay: int, cutoffDay: int)
    requires stoppedDay <= cutoffDay
    ensures Calls(c, rows, Some(oldest), stoppedDay) <= Calls(c, rows, Some(oldest), cutoffDay)
  {
    if DayOf(oldest) <= stoppedDay {
      CandidatesSplit(c, rows, DayOf(oldest), stoppedDay, cutoffDay);
    }
  }

  lemma RestOfCalls(c: Calendar, rows: seq<Row>, stoppedDay: int, first: Option<int>, k: nat, cutoffDay: int, oldest: Option<int>)
    requires stoppedDay <= cutoffDay
    requires IsOldest(rows, stoppedDay * DAY_SECONDS, first) && k <= |Calls(c, rows, first, stoppedDay)|
    requires IsOldest(rows, cutoffDay * DAY_SECONDS, oldest)
    ensures var calls := Calls(c, rows, oldest, cutoffDay);
            AppendMissing(Stopped(c, rows, first, stoppedDay, k), calls) == AppendMissing(rows, calls)
  {
    if first.Some? {
      LaterCutoffSameOldest(rows, stoppedDay * DAY_SECONDS, cutoffDay * DAY_SECONDS, first.value, oldest);
      EarlierCallsComeFirst(c, rows, first.value, stoppedDay, cutoffDay);
      ResumedFromPrefix(rows, Calls(c, rows, first, stoppedDay), Calls(c, rows, oldest, cutoffDay), k);
    }
  }

  lemma ResumedFromPrefix(rows: seq<Row>, part: seq<Row>, calls: seq<Row>, k: nat)
    requires k <= |part| && part <= calls
    ensures AppendMissing(AppendMissing(rows, part[..k]), calls) == AppendMissing(rows, calls)
  {
    assert part[..k] == calls[..k];
    ResumedPassIsTheSame(rows, calls, k);
  }

  /** A pass that stopped anywhere and is run again, on the same or a later day, ends with the very rows
      that one uninterrupted pass on that day writes. */
  lemma RerunEndsTheSame(c: Calendar, rows: seq<Row>, stoppedDay: int, first: Option<int>, k: nat,
                         cutoffDay: int, second: Option<int>, oldest: Option<int>)
    requires stoppedDay <= cutoffDay
    requires IsOldest(rows, stoppedDay * DAY_SECONDS, first) && k <= |Calls(c, rows, first, stoppedDay)|
    requires IsOldest(rows, cutoffDay * DAY_SECONDS, oldest)
    requires IsOldest(Stopped(c, rows, first, stoppedDay, k), cutoffDay * DAY_SECONDS, second)
    ensures Completed(c, Stopped(c, rows, first, stoppedDay, k), second, cutoffDay) == Completed(c, rows, oldest, cutoffDay)
  {
    var so := Stopped(c, rows, first, stoppedDay, k);
    StoppedKeepsDetails(c, rows, first, stoppedDay, k);
    SameDetailsSameOldest(so, rows, cutoffDay * DAY_SECONDS, second, oldest);
    CallsOfSameDetails(c, so, rows, oldest, cutoffDay);
    RestOfCalls(c, rows, stoppedDay, first, k, cutoffDay, oldest);
  }

  /** Running a completed pass again on the same day changes nothing. */
  lemma CompletedTwice(c: Calendar, rows: seq<Row>, oldest: Option<int>, cutoffDay: int, again: Option<int>)
    requires IsOldest(Completed(c, rows, oldest, cutoffDay), cutoffDay * DAY_SECONDS, again)
    ensures Completed(c, Completed(c, rows, oldest, cutoffDay), again, cutoffDay) == Completed(c, rows, oldest, cutoffDay)
  {
    var out := Completed(c, rows, oldest, cutoffDay);
    assert again.None?;
    FilterAll(out, KeepTest(cutoffDay * DAY_SECONDS));
  }

  /** A detail that arrives later counts in full if and only if its day and group are not aggregated yet
      (or it carries no credits). */
  lemma LateDetailCountsIff(c: Calendar, rows: seq<Row>, r: Row, account: string, channel: string)
    requires account != "" && !r.aggregated && IsMatch(r, account, channel)
    ensures LedgerTotal(c, rows + [r], account, channel) == LedgerTotal(c, rows, account, channel) + Amount(r) <==>
            (EntryOf(DayKey(c, r.ts), r.group) in Covered(rows, account, channel) ==> Amount(r) == 0.0)
  {
    CoveredAppend(rows, r, account, channel);
    assert Covered(rows, account, channel) + {} == Covered(rows, account, channel);
    TotalAppend(c, rows, r, account, channel, Covered(rows, account, channel));
  }
}
