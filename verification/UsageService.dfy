/** The channel usage service: the ledger as an object that is appended to, aggregated and pruned in place. */
module UsageService {
  import opened Sequences
  import opened UsageLedger
  import opened RetentionPass

  const DEFAULT_RETENTION_DAYS := 30

  // ---- Storing a row ----

  /** A row as it is stored: lower-case action and result; nothing is stored when a required field is
      missing or unknown. */
  function Normalized(r: Row): Option<Row> {
    var g := r.group.(action := Lower(r.group.action), result := Lower(r.group.result));
    if r.trace == "" || g.channel == "" || g.account == "" || g.action !in ACTIONS || g.result !in RESULTS then None
    else Some(r.(group := g))
  }

  lemma KnownWordsAreLower(g: Group)
    requires g.action in ACTIONS && g.result in RESULTS
    ensures Lower(g.action) == g.action && Lower(g.result) == g.result
  {
  }

  lemma AggregateIsStored(c: Calendar, m: Row)
    requires m.aggregated && RowOk(c, m)
    ensures Normalized(m) == Some(m)
  {
    KnownWordsAreLower(m.group);
  }

  /** What `append` leaves behind: rows that are stored as they are. */
  ghost predicate AllStored(rows: seq<Row>) {
    forall r :: r in rows ==> Normalized(r) == Some(r)
  }

  lemma StoredAgain(r: Row)
    requires Normalized(r).Some?
    ensures Normalized(Normalized(r).value) == Normalized(r)
  {
    KnownWordsAreLower(Normalized(r).value.group);
  }

  // ---- Which details keep the ledger well formed ----

  /** The spelling of a channel that aggregation can rely on. */
  predicate WellSpelled(channel: string) {
    Lower(channel) == channel && ':' !in channel
  }

  /** A stored detail keeps a well-formed ledger well formed if and only if its channel is lower-case and
      without a colon, and its trace id does not look like that of an aggregate row. */
  lemma DetailKeepsLedgerOkIff(c: Calendar, rows: seq<Row>, r: Row)
    requires LedgerOk(c, rows) && Normalized(r).Some? && !r.aggregated
    ensures LedgerOk(c, rows + [Normalized(r).value]) <==> WellSpelled(r.group.channel) && !(PREFIX <= r.trace)
  {
    var stored := Normalized(r).value;
    var all := rows + [stored];
    assert stored in all;
    if RowOk(c, stored) {
      forall i, j | 0 <= i < j < |all| && all[i].aggregated && all[j].aggregated ensures all[i].trace != all[j].trace {
        assert all[i] == rows[i] && all[j] == rows[j];
      }
    }
  }

  // ---- Totals over runs ----

  /** What happens to the ledger: usage is recorded, or a retention pass runs, whole or in part. */
  datatype Act = Recorded(row: Row) | Maintained(cutoffDay: int, budget: nat)

  function Acted(c: Calendar, rows: seq<Row>, a: Act): seq<Row> {
    match a
    case Recorded(r) => if Normalized(r).Some? then rows + [Normalized(r).value] else rows
    case Maintained(cutoffDay, budget) => Pass(c, rows, cutoffDay, budget)
  }

  function RowsAfter(c: Calendar, rows: seq<Row>, acts: seq<Act>): seq<Row> {
    if acts == [] then rows else Acted(c, RowsAfter(c, rows, acts[..|acts| - 1]), acts[|acts| - 1])
  }

  /** The usage is recorded as details that the ledger can aggregate. */
  predicate Admissible(a: Act) {
    a.Recorded? && Normalized(a.row).Some? ==>
      !a.row.aggregated && WellSpelled(a.row.group.channel) && !(PREFIX <= a.row.trace)
  }

  /** The detail is stored and counts for the account: nothing is missing or unknown, the channel is the same
      up to case, and it is not about a circuit breaker. Its result does not matter. */
  predicate Billed(r: Row, account: string, channel: string) {
    && r.trace != "" && account != "" && r.group.account == account
    && r.group.channel != "" && Lower(r.group.channel) == Lower(channel)
    && Lower(r.group.action) in {"image", "video", "edit", "chat", "refresh"}
    && Lower(r.group.result) in {"success", "failed", "refunded", "open"}
  }

  /** What a recorded detail adds to the total of an account: its credits, negative for a refund, unless its
      day and group are aggregated already. */
  ghost function NewCredits(c: Calendar, rows: seq<Row>, r: Row, account: string, channel: string): real {
    var g := r.group.(action := Lower(r.group.action), result := Lower(r.group.result));
    if Billed(r, account, channel) && r.credits.Some? && !HasAggregate(rows, DayKey(c, r.ts), g) then r.credits.value else 0.0
  }

  /** The credits of the details recorded in the run whose day and group were not aggregated by then. */
  ghost function RecordedCredits(c: Calendar, rows: seq<Row>, acts: seq<Act>, account: string, channel: string): real {
    if acts == [] then 0.0
    else
      var before, a := acts[..|acts| - 1], acts[|acts| - 1];
      RecordedCredits(c, rows, before, account, channel) +
      if a.Recorded? then NewCredits(c, RowsAfter(c, rows, before), a.row, account, channel) else 0.0
  }

  /** A detail is billed if and only if it is stored and the sum of reconciliation counts what is stored. */
  lemma BilledIffCounted(r: Row, account: string, channel: string)
    requires account != ""
    ensures Billed(r, account, channel) <==> Normalized(r).Some? && IsMatch(Normalized(r).value, account, channel)
  {
  }

  lemma CoveredIffAggregated(c: Calendar, rows: seq<Row>, r: Row, account: string, channel: string)
    requires LedgerOk(c, rows) && RowOk(c, r) && IsMatch(r, account, channel)
    ensures EntryOf(DayKey(c, r.ts), r.group) in Covered(rows, account, channel) <==> HasAggregate(rows, DayKey(c, r.ts), r.group)
  {
    if EntryOf(DayKey(c, r.ts), r.group) in Covered(rows, account, channel) {
      var x :| x in rows && IsMatch(x, account, channel) && x.aggregated && EntryOf(x.day, x.group) == EntryOf(DayKey(c, r.ts), r.group);
      assert RowOk(c, x) && x.group.channel == Lower(x.group.channel) == Lower(r.group.channel) == r.group.channel;
    }
    if HasAggregate(rows, DayKey(c, r.ts), r.group) {
      var x :| x in rows && x.aggregated && x.day == DayKey(c, r.ts) && x.group == r.group;
      assert IsMatch(x, account, channel) && x.day != "";
    }
  }

  lemma RecordedTotal(c: Calendar, rows: seq<Row>, r: Row, account: string, channel: string)
    requires LedgerOk(c, rows) && Normalized(r).Some? && Admissible(Recorded(r))
    ensures LedgerOk(c, rows + [Normalized(r).value])
    ensures LedgerTotal(c, rows + [Normalized(r).value], account, channel) ==
            LedgerTotal(c, rows, account, channel) + NewCredits(c, rows, r, account, channel)
  {
    var stored := Normalized(r).value;
    if account != "" {
      BilledIffCounted(r, account, channel);
    }
    DetailKeepsLedgerOkIff(c, rows, r);
    assert stored in rows + [stored];
    if IsMatch(stored, account, channel) {
      CoveredIffAggregated(c, rows, stored, account, channel);
    }
    CoveredAppend(rows, stored, account, channel);
    assert Covered(rows, account, channel) + {} == Covered(rows, account, channel);
    TotalAppend(c, rows, stored, account, channel, Covered(rows, account, channel));
  }

  /** Over every run of recordings and retention passes, finished or stopped anywhere, the total of every
      account is the sum of the credits recorded for it on days and groups not yet aggregated. */
  lemma {:induction false} TotalsInEveryRun(c: Calendar, rows: seq<Row>, acts: seq<Act>, account: string, channel: string)
    requires LedgerOk(c, rows) && forall a :: a in acts ==> Admissible(a)
    ensures LedgerOk(c, RowsAfter(c, rows, acts))
    ensures LedgerTotal(c, RowsAfter(c, rows, acts), account, channel) ==
            LedgerTotal(c, rows, account, channel) + RecordedCredits(c, rows, acts, account, channel)
  {
    if acts != [] {
      var before, a := acts[..|acts| - 1], acts[|acts| - 1];
      assert a in acts && forall x :: x in before ==> x in acts;
      TotalsInEveryRun(c, rows, before, account, channel);
      var so := RowsAfter(c, rows, before);
      match a {
        case Recorded(r) =>
          if Normalized(r).Some? {
            RecordedTotal(c, so, r, account, channel);
          } else if account != "" {
            BilledIffCounted(r, account, channel);
          }
        case Maintained(cutoffDay, budget) => PassKeepsLedger(c, so, cutoffDay, budget, account, channel);
      }
    }
  }

  // ---- Daily aggregation ----

  datatype Bucket = Bucket(count: nat, credits: real)

  function BucketOf(rows: seq<Row>, day: int, g: Group): Bucket {
    Bucket(GroupCount(rows, day, g), GroupCredits(rows, day, g))
  }

  function Lookup(buckets: map<Group, Bucket>, g: Group): Bucket {
    if g in buckets then buckets[g] else Bucket(0, 0.0)
  }

  function Added(b: Bucket, r: Row): Bucket {
    Bucket(b.count + 1, b.credits + Amount(r))
  }

  /** The groups met so far, in the order of their first detail. */
  function Met(rows: seq<Row>, day: int): seq<Group> {
    Distinct(GroupsOf(Filter(rows, DayTest(day))))
  }

  ghost predicate Sums(rows: seq<Row>, day: int, buckets: map<Group, Bucket>) {
    forall g :: Lookup(buckets, g) == BucketOf(rows, day, g)
  }

  lemma GroupsAppend(rows: seq<Row>, r: Row)
    ensures Distinct(GroupsOf(rows + [r])) ==
            Distinct(GroupsOf(rows)) + if r.group in Distinct(GroupsOf(rows)) then [] else [r.group]
  {
    assert GroupsOf(rows + [r]) == GroupsOf(rows) + [r.group];
    assert (GroupsOf(rows) + [r.group])[..|rows|] == GroupsOf(rows);
  }

  lemma MetAppend(rows: seq<Row>, r: Row, day: int)
    ensures Met(rows + [r], day) ==
            Met(rows, day) + if !InDay(r, day) || r.group in Met(rows, day) then [] else [r.group]
  {
    FilterConcat(rows, [r], DayTest(day));
    var f := Filter(rows, DayTest(day));
    if InDay(r, day) {
      assert Filter(rows + [r], DayTest(day)) == f + [r];
      GroupsAppend(f, r);
      assert Distinct(GroupsOf(f)) + [] == Distinct(GroupsOf(f));
    } else {
      assert Filter(rows + [r], DayTest(day)) == f;
    }
  }

  lemma BucketAppend(rows: seq<Row>, r: Row, day: int, g: Group)
    ensures BucketOf(rows + [r], day, g) ==
            if InDay(r, day) && r.group == g then Added(BucketOf(rows, day, g), r) else BucketOf(rows, day, g)
  {
    GroupSumsAppend(rows, r, day, g);
  }

  lemma SumsStep(rows: seq<Row>, r: Row, day: int, buckets: map<Group, Bucket>)
    requires Sums(rows, day, buckets) && InDay(r, day)
    ensures Sums(rows + [r], day, buckets[r.group := Added(Lookup(buckets, r.group), r)])
  {
    forall g ensures Lookup(buckets[r.group := Added(Lookup(buckets, r.group), r)], g) == BucketOf(rows + [r], day, g) {
      assert Lookup(buckets, g) == BucketOf(rows, day, g);
      BucketAppend(rows, r, day, g);
    }
  }

  lemma SumsSkip(rows: seq<Row>, r: Row, day: int, buckets: map<Group, Bucket>)
    requires Sums(rows, day, buckets) && !InDay(r, day)
    ensures Sums(rows + [r], day, buckets)
  {
    forall g ensures Lookup(buckets, g) == BucketOf(rows + [r], day, g) {
      assert Lookup(buckets, g) == BucketOf(rows, day, g);
      BucketAppend(rows, r, day, g);
    }
  }

  lemma NothingYet(day: int)
    ensures Sums([], day, map[])
  {
    forall g ensures Lookup(map[], g) == BucketOf([], day, g) {
    }
  }

  /** `aggregate_channel_usage_rows` for one day: the groups in key order with their counts and credits. */
  method AggregateDaily(items: seq<Row>, day: int) returns (groups: seq<Group>, buckets: map<Group, Bucket>)
    ensures groups == DayGroups(items, day)
    ensures forall g :: g in groups ==> g in buckets && buckets[g] == BucketOf(items, day, g)
  {
    buckets := map[];
    var order: seq<Group> := [];
    NothingYet(day);
    for i := 0 to |items|
      invariant order == Met(items[..i], day)
      invariant forall g :: g in order <==> g in buckets
      invariant Sums(items[..i], day, buckets)
    {
      var item := items[i];
      assert items[..i + 1] == items[..i] + [item];
      MetAppend(items[..i], item, day);
      if item.aggregated || item.ts < day * DAY_SECONDS || item.ts >= (day + 1) * DAY_SECONDS || !Named(item.group) {
        SumsSkip(items[..i], item, day, buckets);
      } else {
        SumsStep(items[..i], item, day, buckets);
        if item.group !in buckets {
          order := order + [item.group];
        }
        buckets := buckets[item.group := Added(Lookup(buckets, item.group), item)];
      }
    }
    assert items[..|items|] == items;
    groups := SortGroups(order);
    forall g | g in groups ensures g in buckets && buckets[g] == BucketOf(items, day, g) {
      assert Lookup(buckets, g) == BucketOf(items, day, g);
    }
  }

  /** The row that the pass writes for a group of a day. */
  function AggregateOf(c: Calendar, day: int, g: Group, b: Bucket): Row {
    Row(day * DAY_SECONDS + 12 * 3600, TraceId(c.text(day), g), g, Some(b.credits), true, c.text(day), b.count)
  }

  /** The rows to write for a day, in key order. */
  method AggregateRows(c: Calendar, items: seq<Row>, day: int) returns (due: seq<Row>)
    ensures due == DayCandidates(c, items, day)
  {
    var groups, buckets := AggregateDaily(items, day);
    due := [];
    for i := 0 to |groups|
      invariant due == DayCandidates(c, items, day)[..i]
    {
      due := due + [AggregateOf(c, day, groups[i], buckets[groups[i]])];
    }
  }

  ghost predicate AreStored(due: seq<Row>) {
    forall m :: m in due ==> Normalized(m) == Some(m)
  }

  /** The rows that any day calls for are stored as they are. */
  ghost predicate CallsAreStored(c: Calendar, rows: seq<Row>) {
    forall day :: AreStored(DayCandidates(c, rows, day))
  }

  lemma CandidatesAreStored(c: Calendar, rows: seq<Row>)
    requires AllStored(rows)
    ensures CallsAreStored(c, rows)
  {
    forall day, m | m in DayCandidates(c, rows, day) ensures Normalized(m) == Some(m) {
      var groups := DayGroups(rows, day);
      var i :| 0 <= i < |groups| && m == AggregateRow(c, rows, day, groups[i]);
      DayGroupsExact(rows, day, groups[i]);
      var r :| r in rows && InDay(r, day) && r.group == groups[i];
      assert Normalized(r) == Some(r);
      KnownWordsAreLower(r.group);
    }
  }

  lemma {:induction false} AppendedAreStored(rows: seq<Row>, more: seq<Row>)
    requires AllStored(rows) && AreStored(more)
    ensures AllStored(AppendMissing(rows, more))
  {
    if more != [] {
      assert more[|more| - 1] in more && forall m :: m in more[..|more| - 1] ==> m in more;
      AppendedAreStored(rows, more[..|more| - 1]);
    }
  }

  lemma {:induction false} CandidatesStoredBetween(c: Calendar, rows: seq<Row>, from: int, until: int)
    requires CallsAreStored(c, rows)
    ensures AreStored(Candidates(c, rows, from, until))
    decreases until - from
  {
    if from < until {
      CandidatesStoredBetween(c, rows, from + 1, until);
      assert AreStored(DayCandidates(c, rows, from));
    }
  }

  /** A pass over stored rows leaves stored rows. */
  lemma PassIsStored(c: Calendar, rows: seq<Row>, cutoffDay: int, budget: nat)
    requires AllStored(rows)
    ensures AllStored(Pass(c, rows, cutoffDay, budget))
  {
    var oldest := OldestDetail(rows, cutoffDay * DAY_SECONDS);
    var calls := Calls(c, rows, oldest, cutoffDay);
    CandidatesAreStored(c, rows);
    if oldest.Some? {
      CandidatesStoredBetween(c, rows, DayOf(oldest.value), cutoffDay);
    }
    AppendedAreStored(rows, calls);
    if budget <= |calls| {
      assert forall m :: m in calls[..budget] ==> m in calls;
      AppendedAreStored(rows, calls[..budget]);
    }
  }

  /** The calls done before `day`. */
  function CallsBefore(c: Calendar, rows: seq<Row>, oldest: int, day: int): nat {
    |Candidates(c, rows, DayOf(oldest), day)|
  }

  lemma DayCandidatesUnchanged(c: Calendar, rows: seq<Row>, oldest: Option<int>, cutoffDay: int, k: nat, day: int)
    requires k <= |Calls(c, rows, oldest, cutoffDay)|
    ensures DayCandidates(c, Stopped(c, rows, oldest, cutoffDay, k), day) == DayCandidates(c, rows, day)
  {
    StoppedKeepsDetails(c, rows, oldest, cutoffDay, k);
    SameDetailsSameCandidates(c, Stopped(c, rows, oldest, cutoffDay, k), rows, day);
  }

  lemma PartTaken<T>(before: seq<T>, due: seq<T>, rest: seq<T>, spent: nat)
    requires spent <= |due|
    ensures (before + (due + rest))[..|before| + spent] == before + due[..spent]
    ensures (before + (due + rest))[..|before|] == before
  {
  }

  lemma OneDayOfCandidates(c: Calendar, rows: seq<Row>, from: int, day: int, to: int)
    requires from <= day < to
    ensures Candidates(c, rows, from, day + 1) == Candidates(c, rows, from, day) + DayCandidates(c, rows, day)
    ensures Candidates(c, rows, from, to) ==
            Candidates(c, rows, from, day) + (DayCandidates(c, rows, day) + Candidates(c, rows, day + 1, to))
  {
    CandidatesSplit(c, rows, from, day, to);
    CandidatesSplit(c, rows, from, day, day + 1);
    assert Candidates(c, rows, day, day + 1) == DayCandidates(c, rows, day) + [];
  }

  /** The calls of one more day, or of a part of it. */
  lemma DayOfCalls(c: Calendar, rows: seq<Row>, oldest: int, cutoffDay: int, day: int, spent: nat)
    requires DayOf(oldest) <= day < cutoffDay && spent <= |DayCandidates(c, rows, day)|
    ensures var calls, k := Calls(c, rows, Some(oldest), cutoffDay), CallsBefore(c, rows, oldest, day);
            && k + spent <= |calls|
            && calls[..k + spent] == calls[..k] + DayCandidates(c, rows, day)[..spent]
            && CallsBefore(c, rows, oldest, day + 1) == k + |DayCandidates(c, rows, day)|
  {
    OneDayOfCandidates(c, rows, DayOf(oldest), day, cutoffDay);
    PartTaken(Candidates(c, rows, DayOf(oldest), day), DayCandidates(c, rows, day), Candidates(c, rows, day + 1, cutoffDay), spent);
  }

  lemma DayDone(c: Calendar, rows: seq<Row>, oldest: int, cutoffDay: int, day: int, spent: nat)
    requires DayOf(oldest) <= day < cutoffDay && spent <= |DayCandidates(c, rows, day)|
    ensures var k := CallsBefore(c, rows, oldest, day);
            && k + spent <= |Calls(c, rows, Some(oldest), cutoffDay)|
            && AppendMissing(Stopped(c, rows, Some(oldest), cutoffDay, k), DayCandidates(c, rows, day)[..spent]) ==
               Stopped(c, rows, Some(oldest), cutoffDay, k + spent)
            && CallsBefore(c, rows, oldest, day + 1) == k + |DayCandidates(c, rows, day)|
  {
    DayOfCalls(c, rows, oldest, cutoffDay, day, spent);
    var calls, k := Calls(c, rows, Some(oldest), cutoffDay), CallsBefore(c, rows, oldest, day);
    AppendMissingSplits(rows, calls[..k], DayCandidates(c, rows, day)[..spent]);
  }

  /** A pass over the rows `was` that has come to the start of `day`. */
  ghost predicate PassAt(c: Calendar, was: seq<Row>, so: seq<Row>, oldest: int, cutoffDay: int, day: int, spent: nat) {
    && DayOf(oldest) <= day <= cutoffDay
    && spent == CallsBefore(c, was, oldest, day) <= |Calls(c, was, Some(oldest), cutoffDay)|
    && so == Stopped(c, was, Some(oldest), cutoffDay, spent)
  }

  lemma PassBegins(c: Calendar, was: seq<Row>, oldest: int, cutoffDay: int)
    requires DayOf(oldest) < cutoffDay
    ensures PassAt(c, was, was, oldest, cutoffDay, DayOf(oldest), 0)
  {
  }

  lemma PassEnds(c: Calendar, was: seq<Row>, so: seq<Row>, oldest: int, cutoffDay: int, spent: nat)
    requires PassAt(c, was, so, oldest, cutoffDay, cutoffDay, spent)
    ensures spent == |Calls(c, was, Some(oldest), cutoffDay)| && so == Stopped(c, was, Some(oldest), cutoffDay, spent)
  {
  }

  lemma ReadyForDay(c: Calendar, was: seq<Row>, so: seq<Row>, oldest: int, cutoffDay: int, day: int, spent: nat)
    requires PassAt(c, was, so, oldest, cutoffDay, day, spent)
    ensures DayCandidates(c, so, day) == DayCandidates(c, was, day)
  {
    DayCandidatesUnchanged(c, was, Some(oldest), cutoffDay, spent, day);
  }

  /** What a day, or a part of it, adds to a pass. */
  lemma DayContinued(c: Calendar, was: seq<Row>, so: seq<Row>, oldest: int, cutoffDay: int, day: int, spent: nat, done: nat, now: nat)
    requires PassAt(c, was, so, oldest, cutoffDay, day, spent) && day < cutoffDay && done <= |DayCandidates(c, was, day)|
    requires now == spent + done
    ensures var after := AppendMissing(so, DayCandidates(c, was, day)[..done]);
            && now <= |Calls(c, was, Some(oldest), cutoffDay)|
            && after == Stopped(c, was, Some(oldest), cutoffDay, now)
            && (done == |DayCandidates(c, was, day)| ==> PassAt(c, was, after, oldest, cutoffDay, day + 1, now))
  {
    DayDone(c, was, oldest, cutoffDay, day, done);
  }

  // ---- The ledger object ----

  class Ledger {
    const calendar: Calendar
    var rows: seq<Row>

    /** Every row is one that `append` let through. */
    ghost predicate Stored()
      reads this
    {
      AllStored(rows)
    }

    /** Every row also has the shape that aggregation relies on. */
    ghost predicate Valid()
      reads this
    {
      LedgerOk(calendar, rows)
    }

    constructor (c: Calendar)
      requires CalendarOk(c)
      ensures Valid() && Stored() && calendar == c && rows == []
    {
      calendar := c;
      rows := [];
    }

    /** `append`. It lets any spelling of a channel through; a well-formed ledger stays well formed if and
        only if the detail is not written or its channel and trace id are fit for aggregation. */
    method Append(r: Row) returns (written: bool)
      modifies this
      ensures written == Normalized(r).Some?
      ensures rows == old(rows) + if written then [Normalized(r).value] else []
      ensures old(Stored()) ==> Stored()
      ensures old(Valid()) && !r.aggregated ==>
                (Valid() <==> !written || (WellSpelled(r.group.channel) && !(PREFIX <= r.trace)))
    {
      var entry := Normalized(r);
      written := entry.Some?;
      if written {
        StoredAgain(r);
        if LedgerOk(calendar, rows) && !r.aggregated {
          DetailKeepsLedgerOkIff(calendar, rows, r);
        }
        rows := rows + [entry.value];
      }
    }

    /** `prune_before`. */
    method PruneBefore(ts: int) returns (deleted: nat)
      modifies this
      ensures rows == Prune(old(rows), ts)
      ensures deleted == |old(rows)| - |rows|
    {
      var kept: seq<Row> := [];
      for i := 0 to |rows|
        invariant rows == old(rows)
        invariant kept == Prune(rows[..i], ts)
      {
        FilterStep(rows, i, KeepTest(ts));
        if rows[i].aggregated || rows[i].ts >= ts {
          kept := kept + [rows[i]];
        }
      }
      assert rows[..|rows|] == rows;
      deleted := |rows| - |kept|;
      rows := kept;
    }

    /** One aggregate row, written unless its trace id is there already. */
    method WriteMissing(m: Row) returns (written: bool)
      requires Normalized(m) == Some(m)
      modifies this
      ensures rows == AppendMissing(old(rows), [m])
      ensures |rows| == |old(rows)| + if written then 1 else 0
    {
      written := false;
      assert AppendMissing(rows, []) == rows;
      if !HasTrace(rows, m.trace) {
        written := Append(m);
      }
    }

    /** The aggregate rows of one day, each written unless it is there already. The process stops once it
        has looked at `budget` of them. */
    method WriteDay(day: int, budget: nat) returns (spent: nat, written: nat)
      requires AreStored(DayCandidates(calendar, rows, day))
      modifies this
      ensures spent == Min(budget, |DayCandidates(calendar, old(rows), day)|)
      ensures rows == AppendMissing(old(rows), DayCandidates(calendar, old(rows), day)[..spent])
      ensures |rows| == |old(rows)| + written
    {
      var due := AggregateRows(calendar, rows, day);
      spent, written := WriteRows(due, budget);
    }

    method WriteRows(due: seq<Row>, budget: nat) returns (spent: nat, written: nat)
      requires AreStored(due)
      modifies this
      ensures spent == Min(budget, |due|)
      ensures rows == AppendMissing(old(rows), due[..spent])
      ensures |rows| == |old(rows)| + written
    {
      ghost var was := rows;
      spent, written := 0, 0;
      while spent < |due| && spent < budget
        invariant spent <= |due| && spent <= budget
        invariant rows == AppendMissing(was, due[..spent])
        invariant |rows| == |was| + written
      {
        var ok := WriteMissing(due[spent]);
        assert due[..spent + 1] == due[..spent] + [due[spent]];
        AppendMissingSplits(was, due[..spent], [due[spent]]);
        written := written + if ok then 1 else 0;
        spent := spent + 1;
      }
    }

    /** One day of a pass over the rows `was`. */
    method ContinueDay(ghost was: seq<Row>, oldest: int, cutoffDay: int, day: int, spent: nat, budget: nat)
      returns (now: nat, more: nat)
      requires CallsAreStored(calendar, was) && day < cutoffDay && spent <= budget
      requires PassAt(calendar, was, rows, oldest, cutoffDay, day, spent)
      modifies this
      ensures now <= budget && now <= |Calls(calendar, was, Some(oldest), cutoffDay)|
      ensures rows == Stopped(calendar, was, Some(oldest), cutoffDay, now)
      ensures now < budget ==> PassAt(calendar, was, rows, oldest, cutoffDay, day + 1, now)
      ensures |rows| == |old(rows)| + more
    {
      ghost var so := rows;
      ReadyForDay(calendar, was, so, oldest, cutoffDay, day, spent);
      var left: nat := budget - spent;
      var done, written := WriteDay(day, left);
      now, more := spent + done, written;
      DayContinued(calendar, was, so, oldest, cutoffDay, day, spent, done, now);
    }

    /** The days of a pass, oldest first. */
    method WriteDays(oldest: int, cutoffDay: int, budget: nat) returns (spent: nat, written: nat)
      requires CallsAreStored(calendar, rows) && DayOf(oldest) < cutoffDay
      modifies this
      ensures spent <= budget && spent <= |Calls(calendar, old(rows), Some(oldest), cutoffDay)|
      ensures spent < budget ==> spent == |Calls(calendar, old(rows), Some(oldest), cutoffDay)|
      ensures rows == Stopped(calendar, old(rows), Some(oldest), cutoffDay, spent)
      ensures |rows| == |old(rows)| + written
    {
      ghost var was := rows;
      var day := DayOf(oldest);
      spent, written := 0, 0;
      PassBegins(calendar, was, oldest, cutoffDay);
      while day < cutoffDay
        invariant PassAt(calendar, was, rows, oldest, cutoffDay, day, spent) && spent <= budget
        invariant |rows| == |was| + written
      {
        var now, more := ContinueDay(was, oldest, cutoffDay, day, spent, budget);
        spent, written := now, written + more;
        if spent == budget {
          return;
        }
        day := day + 1;
      }
      PassEnds(calendar, was, rows, oldest, cutoffDay, spent);
    }

    /** `run_retention_maintenance`, stopped when `budget` steps are done: a step is one aggregate row
        looked at, or the final prune. In a well-formed ledger it leaves every total as it was. */
    method RunRetention(now: int, retentionDays: int, budget: nat)
      returns (cutoffDay: int, oldest: Option<int>, spent: nat, written: nat, finished: bool)
      requires Stored()
      modifies this
      ensures Stored() && (old(Valid()) ==> Valid())
      ensures cutoffDay == DayOf(now) - Max(1, if retentionDays == 0 then DEFAULT_RETENTION_DAYS else retentionDays)
      ensures IsOldest(old(rows), cutoffDay * DAY_SECONDS, oldest)
      ensures spent == Min(budget, |Calls(calendar, old(rows), oldest, cutoffDay)|)
      ensures finished <==> |Calls(calendar, old(rows), oldest, cutoffDay)| < budget
      ensures rows == if finished then Completed(calendar, old(rows), oldest, cutoffDay)
                      else Stopped(calendar, old(rows), oldest, cutoffDay, spent)
      ensures rows == Acted(calendar, old(rows), Maintained(cutoffDay, budget))
      ensures old(Valid()) ==> forall account, channel ::
                LedgerTotal(calendar, rows, account, channel) == LedgerTotal(calendar, old(rows), account, channel)
    {
      ghost var was := rows;
      var days := Max(1, if retentionDays == 0 then DEFAULT_RETENTION_DAYS else retentionDays);
      cutoffDay := DayOf(now) - days;
      oldest := FindOldestDetail(rows, cutoffDay * DAY_SECONDS);
      SameDetailsSameOldest(was, was, cutoffDay * DAY_SECONDS, oldest, OldestDetail(was, cutoffDay * DAY_SECONDS));
      spent, written, finished := Maintain(oldest, cutoffDay, budget);
      PassIsStored(calendar, was, cutoffDay, budget);
      if LedgerOk(calendar, was) {
        forall account, channel ensures LedgerTotal(calendar, rows, account, channel) == LedgerTotal(calendar, was, account, channel) {
          PassKeepsLedger(calendar, was, cutoffDay, budget, account, channel);
        }
        PassKeepsLedger(calendar, was, cutoffDay, budget, "", "");
      }
    }

    /** The pass with its cutoff and its oldest detail. */
    method Maintain(oldest: Option<int>, cutoffDay: int, budget: nat) returns (spent: nat, written: nat, finished: bool)
      requires Stored() && IsOldest(rows, cutoffDay * DAY_SECONDS, oldest)
      modifies this
      ensures spent == Min(budget, |Calls(calendar, old(rows), oldest, cutoffDay)|)
      ensures finished <==> |Calls(calendar, old(rows), oldest, cutoffDay)| < budget
      ensures rows == if finished then Completed(calendar, old(rows), oldest, cutoffDay)
                      else Stopped(calendar, old(rows), oldest, cutoffDay, spent)
    {
      ghost var calls := Calls(calendar, rows, oldest, cutoffDay);
      spent, written := 0, 0;
      if oldest.Some? {
        CandidatesAreStored(calendar, rows);
        assert DayOf(oldest.value) < cutoffDay;
        spent, written := WriteDays(oldest.value, cutoffDay, budget);
      }
      assert calls[..|calls|] == calls;
      finished := spent < budget;
      if finished {
        var deleted := PruneBefore(cutoffDay * DAY_SECONDS);
      }
    }

    /** Any sequence of recordings and passes of the same ledger. */
    method Perform(acts: seq<Act>)
      requires Stored()
      modifies this
      ensures rows == RowsAfter(calendar, old(rows), acts)
    {
      ghost var was := rows;
      for i := 0 to |acts|
        invariant Stored() && rows == RowsAfter(calendar, was, acts[..i])
      {
        assert acts[..i + 1][..i] == acts[..i];
        match acts[i] {
          case Recorded(r) => var written := Append(r);
          case Maintained(cutoffDay, budget) =>
            var oldest := FindOldestDetail(rows, cutoffDay * DAY_SECONDS);
            SameDetailsSameOldest(rows, rows, cutoffDay * DAY_SECONDS, oldest, OldestDetail(rows, cutoffDay * DAY_SECONDS));
            PassIsStored(calendar, rows, cutoffDay, budget);
            var spent, written, finished := Maintain(oldest, cutoffDay, budget);
        }
      }
      assert acts[..|acts|] == acts;
    }
  }
}
