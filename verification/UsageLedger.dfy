/** The usage ledger: detail rows, daily aggregate rows, the sum that reconciliation takes over both,
    and the retention pass that replaces old details by aggregates. */
module UsageLedger {
  import opened Sequences

  // ---- Rows ----

  const DAY_SECONDS := 86400

  const ACTIONS: set<string> := {"image", "video", "edit", "chat", "refresh", "circuit"}
  const RESULTS: set<string> := {"success", "failed", "refunded", "open"}
  const CIRCUIT := "circuit"

  datatype Group = Group(channel: string, account: string, action: string, result: string)

  /** A stored row. `credits` is absent when the cost carries none; an aggregate row names its day in
      `day` and counts the details it stands for. */
  datatype Row = Row(ts: int, trace: string, group: Group, credits: Option<real>, aggregated: bool, day: string, count: nat)

  /** The UTC day of a time, as a number. */
  function DayOf(ts: int): int {
    ts / DAY_SECONDS
  }

  /** How days are written: distinct days differ, and no text contains a colon. */
  datatype Calendar = Calendar(text: int -> string)

  ghost predicate CalendarOk(c: Calendar) {
    && (forall d, e :: c.text(d) == c.text(e) ==> d == e)
    && (forall d :: ':' !in c.text(d) && c.text(d) != "")
  }

  function DayKey(c: Calendar, ts: int): string {
    c.text(DayOf(ts))
  }

  function LowerChar(ch: char): char {
    if 'A' <= ch <= 'Z' then (ch as int + 32) as char else ch
  }

  function Lower(s: string): (r: string)
    ensures |r| == |s|
  {
    seq(|s|, i requires 0 <= i < |s| => LowerChar(s[i]))
  }

  function Amount(r: Row): real {
    if r.credits.Some? then r.credits.value else 0.0
  }

  // ---- The sum of reconciliation ----

  predicate IsMatch(r: Row, account: string, channel: string) {
    && r.group.account == account
    && Lower(r.group.channel) == Lower(channel)
    && r.group.action != CIRCUIT
  }

  type DayEntry = (string, string, string)

  function EntryOf(day: string, g: Group): DayEntry {
    (day, g.action, g.result)
  }

  /** The (day, action, result) triples that aggregate rows of the account cover. */
  function Covered(rows: seq<Row>, account: string, channel: string): set<DayEntry> {
    set r | r in rows && IsMatch(r, account, channel) && r.aggregated && r.day != "" :: EntryOf(r.day, r.group)
  }

  function Contribution(c: Calendar, r: Row, account: string, channel: string, covered: set<DayEntry>): real {
    if !IsMatch(r, account, channel) then 0.0
    else if !r.aggregated && EntryOf(DayKey(c, r.ts), r.group) in covered then 0.0
    else Amount(r)
  }

  function TotalWith(c: Calendar, rows: seq<Row>, account: string, channel: string, covered: set<DayEntry>): real {
    if rows == [] then 0.0
    else
      TotalWith(c, rows[..|rows| - 1], account, channel, covered) +
      Contribution(c, rows[|rows| - 1], account, channel, covered)
  }

  /** The credits an account has used on a channel. */
  function LedgerTotal(c: Calendar, rows: seq<Row>, account: string, channel: string): real {
    if account == "" then 0.0 else TotalWith(c, rows, account, channel, Covered(rows, account, channel))
  }

  /** `sum_ledger_credits`, with its three loops. */
  method SumLedgerCredits(c: Calendar, entries: seq<Row>, account: string, channel: string) returns (total: real)
    ensures total == LedgerTotal(c, entries, account, channel)
  {
    total := 0.0;
    if account == "" {
      return;
    }
    var covered: set<DayEntry> := {};
    for i := 0 to |entries|
      invariant covered == Covered(entries[..i], account, channel)
    {
      var r := entries[i];
      assert entries[..i + 1] == entries[..i] + [r];
      if IsMatch(r, account, channel) && r.aggregated && r.day != "" {
        covered := covered + {EntryOf(r.day, r.group)};
      }
    }
    assert entries[..|entries|] == entries;
    for i := 0 to |entries|
      invariant total == TotalWith(c, entries[..i], account, channel, covered)
    {
      var r := entries[i];
      assert entries[..i + 1][..i] == entries[..i];
      if IsMatch(r, account, channel) && (r.aggregated || EntryOf(DayKey(c, r.ts), r.group) !in covered) && r.credits.Some? {
        total := total + r.credits.value;
      }
    }
  }

  // ---- Daily aggregation ----

  /** Aggregation skips rows that leave a key field empty. */
  predicate Named(g: Group) {
    g.channel != "" && g.account != "" && g.action != "" && g.result != ""
  }

  predicate InDay(r: Row, day: int) {
    !r.aggregated && DayOf(r.ts) == day && Named(r.group)
  }

  function DayTest(day: int): Row -> bool {
    r => InDay(r, day)
  }

  function GroupsOf(rows: seq<Row>): (r: seq<Group>)
    ensures |r| == |rows| && forall i :: 0 <= i < |rows| ==> r[i] == rows[i].group
  {
    seq(|rows|, i requires 0 <= i < |rows| => rows[i].group)
  }

  function GroupCredits(rows: seq<Row>, day: int, g: Group): real {
    if rows == [] then 0.0
    else
      GroupCredits(rows[..|rows| - 1], day, g) +
      var r := rows[|rows| - 1]; if InDay(r, day) && r.group == g then Amount(r) else 0.0
  }

  function GroupCount(rows: seq<Row>, day: int, g: Group): nat {
    if rows == [] then 0
    else
      GroupCount(rows[..|rows| - 1], day, g) +
      var r := rows[|rows| - 1]; if InDay(r, day) && r.group == g then 1 else 0
  }

  predicate TextBefore(a: string, b: string) {
    if a == "" then b != ""
    else if b == "" then false
    else a[0] < b[0] || (a[0] == b[0] && TextBefore(a[1..], b[1..]))
  }

  predicate GroupBefore(a: Group, b: Group) {
    if a.channel != b.channel then TextBefore(a.channel, b.channel)
    else if a.account != b.account then TextBefore(a.account, b.account)
    else if a.action != b.action then TextBefore(a.action, b.action)
    else TextBefore(a.result, b.result)
  }

  function InsertGroup(s: seq<Group>, g: Group): (r: seq<Group>)
    ensures forall x :: x in r <==> x in s || x == g
  {
    if s == [] then [g] else if GroupBefore(g, s[0]) then [g] + s else [s[0]] + InsertGroup(s[1..], g)
  }

  function SortGroups(s: seq<Group>): (r: seq<Group>)
    ensures forall x :: x in r <==> x in s
  {
    if s == [] then [] else InsertGroup(SortGroups(s[1..]), s[0])
  }

  /** The groups that have details on the day, each once, in key order. */
  function DayGroups(rows: seq<Row>, day: int): seq<Group> {
    SortGroups(Distinct(GroupsOf(Filter(rows, DayTest(day)))))
  }

  lemma DayGroupsExact(rows: seq<Row>, day: int, g: Group)
    ensures g in DayGroups(rows, day) <==> exists r :: r in rows && InDay(r, day) && r.group == g
  {
    var details := Filter(rows, DayTest(day));
    if g in GroupsOf(details) {
      var i :| 0 <= i < |details| && GroupsOf(details)[i] == g;
      assert details[i] in details;
    }
    if r :| r in rows && InDay(r, day) && r.group == g {
      assert r in details;
      var i :| 0 <= i < |details| && details[i] == r;
      assert GroupsOf(details)[i] == g;
    }
  }

  // ---- Aggregate rows and their trace ids ----

  const PREFIX := "daily-agg:"

  function TraceId(day: string, g: Group): string {
    PREFIX + (day + ":" + (g.channel + ":" + ((g.account + ":" + g.action) + ":" + g.result)))
  }

  function AggregateRow(c: Calendar, rows: seq<Row>, day: int, g: Group): Row {
    Row(day * DAY_SECONDS + 12 * 3600, TraceId(c.text(day), g), g,
        Some(GroupCredits(rows, day, g)), true, c.text(day), GroupCount(rows, day, g))
  }

  /** Two texts cut at their last colon. */
  lemma {:induction false} LastColonSplits(x: string, a: string, y: string, b: string)
    requires ':' !in a && ':' !in b && x + ":" + a == y + ":" + b
    ensures x == y && a == b
  {
    var s, t := x + ":" + a, y + ":" + b;
    forall i | |x| < i < |s| ensures s[i] != ':' {
      assert s[i] == a[i - |x| - 1];
    }
    forall i | |y| < i < |t| ensures t[i] != ':' {
      assert t[i] == b[i - |y| - 1];
    }
    assert s[|x|] == ':' && t[|y|] == ':' && |x| == |y|;
    assert x == s[..|x|] && y == t[..|y|];
    assert a == s[|x| + 1..] && b == t[|y| + 1..];
  }

  /** The trace id determines day and group when neither day, channel, action nor result contains a
      colon; the account id may. */
  lemma TraceIdInjective(d: string, g: Group, e: string, h: Group)
    requires ':' !in d && ':' !in g.channel && ':' !in g.action && ':' !in g.result
    requires ':' !in e && ':' !in h.channel && ':' !in h.action && ':' !in h.result
    requires TraceId(d, g) == TraceId(e, h)
    ensures d == e && g == h
  {
    var gTail, hTail := (g.account + ":" + g.action) + ":" + g.result, (h.account + ":" + h.action) + ":" + h.result;
    var gRest, hRest := g.channel + ":" + gTail, h.channel + ":" + hTail;
    assert TraceId(d, g)[|PREFIX|..] == d + ":" + gRest;
    assert TraceId(e, h)[|PREFIX|..] == e + ":" + hRest;
    FirstColonSplits(d, gRest, e, hRest);
    FirstColonSplits(g.channel, gTail, h.channel, hTail);
    LastColonSplits(g.account + ":" + g.action, g.result, h.account + ":" + h.action, h.result);
    LastColonSplits(g.account, g.action, h.account, h.action);
  }

  /** Two groups with the same action and result share a trace id on a day if and only if they are the same
      group, or the channel of one goes on with a colon behind the other channel, and the account of the
      other begins with that rest: then the second group is never aggregated. */
  lemma TraceIdsCollideIff(d: string, g: Group, h: Group)
    requires g.action == h.action && g.result == h.result
    ensures TraceId(d, g) == TraceId(d, h) <==>
            || g == h
            || (exists m :: h.channel == g.channel + ":" + m && g.account == m + ":" + h.account)
            || (exists m :: g.channel == h.channel + ":" + m && h.account == m + ":" + g.account)
  {
    var end := ":" + g.action + ":" + g.result;
    TraceSplits(d, g);
    TraceSplits(d, h);
    var x, y := g.channel + ":" + g.account, h.channel + ":" + h.account;
    assert TraceId(d, g) == TraceId(d, h) <==> x == y by {
      SameAround(PREFIX + d + ":", x, y, end);
    }
    ColonJoinsAlikeIff(g.channel, g.account, h.channel, h.account);
  }

  lemma TraceSplits(d: string, g: Group)
    ensures TraceId(d, g) == (PREFIX + d + ":") + (g.channel + ":" + g.account) + (":" + g.action + ":" + g.result)
  {
  }

  lemma SameAround(front: string, x: string, y: string, back: string)
    ensures front + x + back == front + y + back <==> x == y
  {
    if front + x + back == front + y + back {
      assert |x| == |y|;
      assert x == (front + x + back)[|front|..|front| + |x|];
      assert y == (front + y + back)[|front|..|front| + |y|];
    }
  }

  // ---- Well-formed ledgers ----

  /** A row as the service stores it: known action and result, a lower-case channel without a colon;
      an aggregate row carries the trace id of its day and group, a detail row does not look like one. */
  ghost predicate RowOk(c: Calendar, r: Row) {
    && r.group.action in ACTIONS && r.group.result in RESULTS
    && r.group.channel != "" && r.group.account != ""
    && Lower(r.group.channel) == r.group.channel && ':' !in r.group.channel
    && (r.aggregated ==> (exists d :: r.day == c.text(d)) && r.trace == TraceId(r.day, r.group))
    && (!r.aggregated ==> !(PREFIX <= r.trace))
  }

  ghost predicate LedgerOk(c: Calendar, rows: seq<Row>) {
    && CalendarOk(c)
    && (forall r :: r in rows ==> RowOk(c, r))
    && OneTraceEach(rows)
  }

  ghost predicate OneTraceEach(rows: seq<Row>) {
    forall i, j :: 0 <= i < j < |rows| && rows[i].aggregated && rows[j].aggregated ==> rows[i].trace != rows[j].trace
  }

  lemma NoColons(g: Group)
    requires g.action in ACTIONS && g.result in RESULTS
    ensures ':' !in g.action && ':' !in g.result
  {
  }

  predicate HasTrace(rows: seq<Row>, trace: string) {
    exists r :: r in rows && r.trace == trace
  }

  ghost predicate HasAggregate(rows: seq<Row>, day: string, g: Group) {
    exists r :: r in rows && r.aggregated && r.day == day && r.group == g
  }

  /** The keyed existence check finds exactly the aggregate row of the day and group. */
  lemma TraceFindsAggregate(c: Calendar, rows: seq<Row>, day: int, g: Group)
    requires LedgerOk(c, rows)
    requires g.action in ACTIONS && g.result in RESULTS && ':' !in g.channel
    ensures HasTrace(rows, TraceId(c.text(day), g)) <==> HasAggregate(rows, c.text(day), g)
  {
    NoColons(g);
    if r :| r in rows && r.trace == TraceId(c.text(day), g) {
      assert RowOk(c, r) && PREFIX <= r.trace;
      NoColons(r.group);
      TraceIdInjective(r.day, r.group, c.text(day), g);
    }
    if HasAggregate(rows, c.text(day), g) {
      var r :| r in rows && r.aggregated && r.day == c.text(day) && r.group == g;
      assert RowOk(c, r);
    }
  }

  // ---- One append ----

  /** Credits of the details of the day whose group differs from `g` at most in the spelling of the
      channel: what the sum leaves out once an aggregate row of `g` exists. */
  function SpellingCredits(rows: seq<Row>, day: int, g: Group): real {
    if rows == [] then 0.0
    else
      SpellingCredits(rows[..|rows| - 1], day, g) +
      var r := rows[|rows| - 1];
      if InDay(r, day) && r.group.account == g.account && Lower(r.group.channel) == Lower(g.channel) &&
         r.group.action == g.action && r.group.result == g.result
      then Amount(r) else 0.0
  }

  lemma {:induction false} CoverShift(c: Calendar, rows: seq<Row>, day: int, g: Group, channel: string, covered: set<DayEntry>)
    requires CalendarOk(c) && Named(g) && Lower(channel) == Lower(g.channel) && g.action != CIRCUIT
    requires EntryOf(c.text(day), g) !in covered
    ensures TotalWith(c, rows, g.account, channel, covered + {EntryOf(c.text(day), g)}) ==
            TotalWith(c, rows, g.account, channel, covered) - SpellingCredits(rows, day, g)
  {
    if rows != [] {
      CoverShift(c, rows[..|rows| - 1], day, g, channel, covered);
    }
  }

  lemma CoveredAppend(rows: seq<Row>, r: Row, account: string, channel: string)
    ensures Covered(rows + [r], account, channel) ==
            Covered(rows, account, channel) +
            if IsMatch(r, account, channel) && r.aggregated && r.day != "" then {EntryOf(r.day, r.group)} else {}
  {
    assert forall x :: x in rows + [r] <==> x in rows || x == r;
  }

  lemma TotalAppend(c: Calendar, rows: seq<Row>, r: Row, account: string, channel: string, covered: set<DayEntry>)
    ensures TotalWith(c, rows + [r], account, channel, covered) ==
            TotalWith(c, rows, account, channel, covered) + Contribution(c, r, account, channel, covered)
  {
    assert (rows + [r])[..|rows|] == rows;
  }

  /** The credits of exactly the rows with this account, this channel without case and another action than
      that of a circuit breaker, whatever their result. */
  function RowCredits(rows: seq<Row>, account: string, channel: string): real {
    if rows == [] then 0.0
    else
      var r := rows[|rows| - 1];
      var counts := r.group.account == account && Lower(r.group.channel) == Lower(channel) && r.group.action != "circuit";
      RowCredits(rows[..|rows| - 1], account, channel) + if counts && r.credits.Some? then r.credits.value else 0.0
  }

  lemma {:induction false} UncoveredTotal(c: Calendar, rows: seq<Row>, account: string, channel: string)
    ensures TotalWith(c, rows, account, channel, {}) == RowCredits(rows, account, channel)
  {
    if rows != [] {
      UncoveredTotal(c, rows[..|rows| - 1], account, channel);
    }
  }

  /** A ledger without aggregate rows adds up to the credits of the rows of the account. */
  lemma DetailsAddUp(c: Calendar, rows: seq<Row>, account: string, channel: string)
    requires account != "" && forall r :: r in rows ==> !r.aggregated
    ensures LedgerTotal(c, rows, account, channel) == RowCredits(rows, account, channel)
  {
    assert Covered(rows, account, channel) == {};
    UncoveredTotal(c, rows, account, channel);
  }

  /** A charge and its refund cancel, whatever else is in a ledger without aggregate rows. */
  lemma RefundCancels(c: Calendar, rows: seq<Row>, charge: Row, refund: Row, account: string, channel: string)
    requires account != "" && (forall r :: r in rows ==> !r.aggregated) && !charge.aggregated && !refund.aggregated
    requires charge.group.account == refund.group.account && Lower(charge.group.channel) == Lower(refund.group.channel)
    requires charge.group.action != "circuit" && refund.group.action != "circuit"
    requires charge.credits.Some? && refund.credits == Some(-charge.credits.value)
    ensures LedgerTotal(c, rows + [charge] + [refund], account, channel) == LedgerTotal(c, rows, account, channel)
  {
    assert (rows + [charge] + [refund])[..|rows| + 1] == rows + [charge] && (rows + [charge])[..|rows|] == rows;
    DetailsAddUp(c, rows + [charge] + [refund], account, channel);
    DetailsAddUp(c, rows, account, channel);
  }

  /** Appending the aggregate row of a group that is not covered yet keeps the total of its account if
      and only if the credits of that day under all spellings of the channel add up to those under the
      spelling of the group. */
  lemma AppendKeepsTotalIff(c: Calendar, rows: seq<Row>, day: int, g: Group, channel: string)
    requires CalendarOk(c) && Named(g) && g.action != CIRCUIT && Lower(channel) == Lower(g.channel)
    requires EntryOf(c.text(day), g) !in Covered(rows, g.account, channel)
    ensures LedgerTotal(c, rows + [AggregateRow(c, rows, day, g)], g.account, channel) ==
            LedgerTotal(c, rows, g.account, channel) <==>
            SpellingCredits(rows, day, g) == GroupCredits(rows, day, g)
  {
    var row := AggregateRow(c, rows, day, g);
    var covered := Covered(rows, g.account, channel);
    CoveredAppend(rows, row, g.account, channel);
    TotalAppend(c, rows, row, g.account, channel, covered + {EntryOf(c.text(day), g)});
    CoverShift(c, rows, day, g, channel, covered);
  }

  lemma {:induction false} OneSpelling(c: Calendar, rows: seq<Row>, day: int, g: Group)
    requires forall r :: r in rows ==> RowOk(c, r)
    requires Lower(g.channel) == g.channel
    ensures SpellingCredits(rows, day, g) == GroupCredits(rows, day, g)
  {
    if rows != [] {
      assert forall r :: r in rows[..|rows| - 1] ==> r in rows;
      OneSpelling(c, rows[..|rows| - 1], day, g);
      assert rows[|rows| - 1] in rows;
    }
  }

  lemma MissingIsNotCovered(c: Calendar, rows: seq<Row>, day: int, g: Group, r: Row)
    requires LedgerOk(c, rows) && r in rows && r.aggregated
    requires r.group.account == g.account && Lower(r.group.channel) == Lower(g.channel) && Lower(g.channel) == g.channel
    requires !HasTrace(rows, TraceId(c.text(day), g))
    ensures EntryOf(r.day, r.group) != EntryOf(c.text(day), g)
  {
    assert RowOk(c, r);
    assert r.trace != TraceId(c.text(day), g);
  }

  /** In a well-formed ledger an aggregate row of a missing group changes no total. */
  lemma AppendKeepsTotals(c: Calendar, rows: seq<Row>, day: int, g: Group, account: string, channel: string)
    requires LedgerOk(c, rows)
    requires Named(g) && ':' !in g.channel && Lower(g.channel) == g.channel
    requires !HasTrace(rows, TraceId(c.text(day), g))
    ensures LedgerTotal(c, rows + [AggregateRow(c, rows, day, g)], account, channel) == LedgerTotal(c, rows, account, channel)
  {
    var row := AggregateRow(c, rows, day, g);
    if IsMatch(row, account, channel) {
      assert EntryOf(c.text(day), g) !in Covered(rows, account, channel) by {
        forall r | r in rows && IsMatch(r, account, channel) && r.aggregated
          ensures EntryOf(r.day, r.group) != EntryOf(c.text(day), g)
        {
          MissingIsNotCovered(c, rows, day, g, r);
        }
      }
      OneSpelling(c, rows, day, g);
      AppendKeepsTotalIff(c, rows, day, g, channel);
    } else {
      CoveredAppend(rows, row, account, channel);
      assert Covered(rows, account, channel) + {} == Covered(rows, account, channel);
      TotalAppend(c, rows, row, account, channel, Covered(rows, account, channel));
    }
  }

  // ---- Pruning ----

  function KeepTest(cutoff: int): Row -> bool {
    (r: Row) => r.aggregated || r.ts >= cutoff
  }

  function Prune(rows: seq<Row>, cutoff: int): seq<Row> {
    Filter(rows, KeepTest(cutoff))
  }

  /** Every detail that the prune would delete has an aggregate row of its day and group. */
  ghost predicate Replaced(c: Calendar, rows: seq<Row>, cutoff: int) {
    forall r :: r in rows && !r.aggregated && r.ts < cutoff ==> HasAggregate(rows, DayKey(c, r.ts), r.group)
  }

  lemma PruneAppend(rows: seq<Row>, r: Row, cutoff: int)
    ensures Prune(rows + [r], cutoff) == if r.aggregated || r.ts >= cutoff then Prune(rows, cutoff) + [r] else Prune(rows, cutoff)
  {
    FilterConcat(rows, [r], KeepTest(cutoff));
  }

  lemma {:induction false} PruneDropsNothingCounted(c: Calendar, rows: seq<Row>, cutoff: int, account: string,
          channel: string, covered: set<DayEntry>)
    requires forall r :: r in rows && !r.aggregated && r.ts < cutoff && IsMatch(r, account, channel) ==>
      EntryOf(DayKey(c, r.ts), r.group) in covered
    ensures TotalWith(c, Prune(rows, cutoff), account, channel, covered) == TotalWith(c, rows, account, channel, covered)
  {
    if rows != [] {
      var init, last := rows[..|rows| - 1], rows[|rows| - 1];
      assert rows == init + [last] && last in rows;
      PruneDropsNothingCounted(c, init, cutoff, account, channel, covered);
      PruneAppend(init, last, cutoff);
      TotalAppend(c, init, last, account, channel, covered);
      if last.aggregated || last.ts >= cutoff {
        TotalAppend(c, Prune(init, cutoff), last, account, channel, covered);
      }
    }
  }

  lemma PruneKeepsTotals(c: Calendar, rows: seq<Row>, cutoff: int, account: string, channel: string)
    requires LedgerOk(c, rows) && Replaced(c, rows, cutoff)
    ensures LedgerTotal(c, Prune(rows, cutoff), account, channel) == LedgerTotal(c, rows, account, channel)
  {
    assert Covered(Prune(rows, cutoff), account, channel) == Covered(rows, account, channel);
    forall r | r in rows && !r.aggregated && r.ts < cutoff && IsMatch(r, account, channel)
      ensures EntryOf(DayKey(c, r.ts), r.group) in Covered(rows, account, channel)
    {
      var a :| a in rows && a.aggregated && a.day == DayKey(c, r.ts) && a.group == r.group;
    }
    PruneDropsNothingCounted(c, rows, cutoff, account, channel, Covered(rows, account, channel));
  }

  // ---- The retention pass as a sequence of candidate rows ----

  function DetailTest(): Row -> bool {
    (r: Row) => !r.aggregated
  }

  /** The detail rows: appending aggregates never changes them. */
  function Details(rows: seq<Row>): seq<Row> {
    Filter(rows, DetailTest())
  }

  /** The aggregate rows that the days `[from, until)` call for, in the order they are written. */
  function Candidates(c: Calendar, rows: seq<Row>, from: int, until: int): seq<Row>
    decreases until - from
  {
    if from >= until then [] else DayCandidates(c, rows, from) + Candidates(c, rows, from + 1, until)
  }

  function DayCandidates(c: Calendar, rows: seq<Row>, day: int): seq<Row> {
    CandidateRows(c, rows, day, DayGroups(rows, day))
  }

  function CandidateRows(c: Calendar, rows: seq<Row>, day: int, groups: seq<Group>): (r: seq<Row>)
    ensures |r| == |groups| && forall i :: 0 <= i < |r| ==> r[i] == AggregateRow(c, rows, day, groups[i])
  {
    seq(|groups|, i requires 0 <= i < |groups| => AggregateRow(c, rows, day, groups[i]))
  }

  /** Appends the rows whose trace id is not there yet. */
  function AppendMissing(rows: seq<Row>, more: seq<Row>): seq<Row> {
    if more == [] then rows
    else
      var so := AppendMissing(rows, more[..|more| - 1]);
      if HasTrace(so, more[|more| - 1].trace) then so else so + [more[|more| - 1]]
  }

  lemma {:induction false} AppendMissingSplits(rows: seq<Row>, a: seq<Row>, b: seq<Row>)
    ensures AppendMissing(rows, a + b) == AppendMissing(AppendMissing(rows, a), b)
  {
    if b == [] {
      assert a + b == a;
    } else {
      assert (a + b)[..|a + b| - 1] == a + b[..|b| - 1];
      AppendMissingSplits(rows, a, b[..|b| - 1]);
    }
  }

  lemma {:induction false} MissingIsFound(rows: seq<Row>, more: seq<Row>)
    ensures forall r :: r in rows ==> r in AppendMissing(rows, more)
    ensures forall m :: m in more ==> HasTrace(AppendMissing(rows, more), m.trace)
  {
    if more != [] {
      var init, last := more[..|more| - 1], more[|more| - 1];
      MissingIsFound(rows, init);
      var so := AppendMissing(rows, init);
      forall m | m in more ensures HasTrace(AppendMissing(rows, more), m.trace) {
        if m in init {
          var r :| r in so && r.trace == m.trace;
          assert r in AppendMissing(rows, more);
        } else {
          assert m == last;
          if !HasTrace(so, last.trace) {
            assert last in AppendMissing(rows, more);
          }
        }
      }
    }
  }

  lemma {:induction false} NothingMissing(rows: seq<Row>, more: seq<Row>)
    requires forall m :: m in more ==> HasTrace(rows, m.trace)
    ensures AppendMissing(rows, more) == rows
  {
    if more != [] {
      NothingMissing(rows, more[..|more| - 1]);
      assert more[|more| - 1] in more;
    }
  }

  /** Writing a list of candidates again, after any part of it was written, ends with the same rows. */
  lemma ResumedPassIsTheSame(rows: seq<Row>, more: seq<Row>, k: nat)
    requires k <= |more|
    ensures AppendMissing(AppendMissing(rows, more[..k]), more) == AppendMissing(rows, more)
  {
    assert more == more[..k] + more[k..];
    AppendMissingSplits(rows, more[..k], more[k..]);
    AppendMissingSplits(AppendMissing(rows, more[..k]), more[..k], more[k..]);
    MissingIsFound(rows, more[..k]);
    NothingMissing(AppendMissing(rows, more[..k]), more[..k]);
  }

  // ---- Aggregation depends on the details only ----

  lemma GroupSumsAppend(rows: seq<Row>, r: Row, day: int, g: Group)
    ensures GroupCredits(rows + [r], day, g) == GroupCredits(rows, day, g) + if InDay(r, day) && r.group == g then Amount(r) else 0.0
    ensures GroupCount(rows + [r], day, g) == GroupCount(rows, day, g) + if InDay(r, day) && r.group == g then 1 else 0
  {
    assert (rows + [r])[..|rows|] == rows;
  }

  lemma DetailsAppend(rows: seq<Row>, r: Row)
    ensures Details(rows + [r]) == if r.aggregated then Details(rows) else Details(rows) + [r]
  {
    FilterConcat(rows, [r], DetailTest());
  }

  lemma {:induction false} GroupSumsOfDetails(rows: seq<Row>, day: int, g: Group)
    ensures GroupCredits(Details(rows), day, g) == GroupCredits(rows, day, g)
    ensures GroupCount(Details(rows), day, g) == GroupCount(rows, day, g)
  {
    if rows != [] {
      var init, last := rows[..|rows| - 1], rows[|rows| - 1];
      assert rows == init + [last];
      GroupSumsOfDetails(init, day, g);
      DetailsAppend(init, last);
      GroupSumsAppend(init, last, day, g);
      if !last.aggregated {
        GroupSumsAppend(Details(init), last, day, g);
      }
    }
  }

  lemma {:induction false} DayOfDetails(rows: seq<Row>, day: int)
    ensures Filter(Details(rows), DayTest(day)) == Filter(rows, DayTest(day))
  {
    if rows != [] {
      var head, tail := [rows[0]], rows[1..];
      assert rows == head + tail;
      DayOfDetails(tail, day);
      FilterConcat(head, tail, DetailTest());
      FilterConcat(head, tail, DayTest(day));
      FilterConcat(Details(head), Details(tail), DayTest(day));
      assert Details(head) == if rows[0].aggregated then [] else head;
    }
  }

  lemma DayGroupsOfDetails(rows: seq<Row>, day: int)
    ensures DayGroups(Details(rows), day) == DayGroups(rows, day)
  {
    DayOfDetails(rows, day);
  }

  lemma SameDetailsSameAggregate(c: Calendar, a: seq<Row>, b: seq<Row>, day: int, g: Group)
    requires Details(a) == Details(b)
    ensures AggregateRow(c, a, day, g) == AggregateRow(c, b, day, g)
  {
    GroupSumsOfDetails(a, day, g);
    GroupSumsOfDetails(b, day, g);
  }

  /** Two ledgers with the same details call for the same aggregate rows. */
  lemma SameDetailsSameCandidates(c: Calendar, a: seq<Row>, b: seq<Row>, day: int)
    requires Details(a) == Details(b)
    ensures DayCandidates(c, a, day) == DayCandidates(c, b, day)
  {
    DayGroupsOfDetails(a, day);
    DayGroupsOfDetails(b, day);
    forall g ensures AggregateRow(c, a, day, g) == AggregateRow(c, b, day, g) {
      SameDetailsSameAggregate(c, a, b, day, g);
    }
  }

  lemma {:induction false} SameDetailsSamePass(c: Calendar, a: seq<Row>, b: seq<Row>, from: int, until: int)
    requires Details(a) == Details(b)
    ensures Candidates(c, a, from, until) == Candidates(c, b, from, until)
    decreases until - from
  {
    if from < until {
      SameDetailsSameCandidates(c, a, b, from);
      SameDetailsSamePass(c, a, b, from + 1, until);
    }
  }

  lemma {:induction false} CandidatesSplit(c: Calendar, rows: seq<Row>, from: int, mid: int, until: int)
    requires from <= mid <= until
    ensures Candidates(c, rows, from, until) == Candidates(c, rows, from, mid) + Candidates(c, rows, mid, until)
    decreases mid - from
  {
    if from < mid {
      CandidatesSplit(c, rows, from + 1, mid, until);
      ConcatAgain(DayCandidates(c, rows, from), Candidates(c, rows, from + 1, mid), Candidates(c, rows, mid, until));
    }
  }

  lemma ConcatAgain(a: seq<Row>, b: seq<Row>, d: seq<Row>)
    ensures a + (b + d) == (a + b) + d
  {
  }

  lemma {:induction false} AppendMissingKeepsDetails(rows: seq<Row>, more: seq<Row>)
    requires forall m :: m in more ==> m.aggregated
    ensures Details(AppendMissing(rows, more)) == Details(rows)
  {
    if more != [] {
      var last := more[|more| - 1];
      assert last in more;
      AppendMissingKeepsDetails(rows, more[..|more| - 1]);
      var so := AppendMissing(rows, more[..|more| - 1]);
      FilterConcat(so, [last], DetailTest());
    }
  }

  // ---- Every candidate keeps the ledger well formed and the totals unchanged ----

  lemma CandidateIsDue(c: Calendar, rows: seq<Row>, day: int, m: Row)
    requires LedgerOk(c, rows) && m in DayCandidates(c, rows, day)
    ensures m.aggregated && m == AggregateRow(c, rows, day, m.group) && RowOk(c, m)
    ensures exists r :: r in rows && InDay(r, day) && r.group == m.group
  {
    var groups := DayGroups(rows, day);
    var i :| 0 <= i < |groups| && m == AggregateRow(c, rows, day, groups[i]);
    DayGroupsExact(rows, day, groups[i]);
    var r :| r in rows && InDay(r, day) && r.group == groups[i];
    assert RowOk(c, r);
  }

  /** `m` is the aggregate row of its group on some day of `[from, until)`. */
  ghost predicate IsDue(c: Calendar, rows: seq<Row>, from: int, until: int, m: Row) {
    && m.aggregated && RowOk(c, m)
    && exists d :: from <= d < until && m == AggregateRow(c, rows, d, m.group)
  }

  lemma {:induction false} CandidatesAreDue(c: Calendar, rows: seq<Row>, from: int, until: int)
    requires LedgerOk(c, rows)
    ensures forall m :: m in Candidates(c, rows, from, until) ==> IsDue(c, rows, from, until, m)
    decreases until - from
  {
    if from < until {
      CandidatesAreDue(c, rows, from + 1, until);
      forall m | m in DayCandidates(c, rows, from) ensures m.aggregated && RowOk(c, m) && m == AggregateRow(c, rows, from, m.group) {
        CandidateIsDue(c, rows, from, m);
      }
    }
  }

  lemma AppendKeepsLedgerOk(c: Calendar, rows: seq<Row>, m: Row)
    requires LedgerOk(c, rows) && RowOk(c, m) && !HasTrace(rows, m.trace)
    ensures LedgerOk(c, rows + [m])
  {
    var all := rows + [m];
    forall i, j | 0 <= i < j < |all| && all[i].aggregated && all[j].aggregated ensures all[i].trace != all[j].trace {
      assert all[i] == rows[i] && rows[i] in rows;
    }
  }

  /** `so` is reached from `rows` by appending aggregate rows; `m` is one more of them. */
  lemma AppendDueKeeps(c: Calendar, rows: seq<Row>, so: seq<Row>, m: Row, day: int, account: string, channel: string)
    requires LedgerOk(c, so) && Details(so) == Details(rows)
    requires RowOk(c, m) && m == AggregateRow(c, rows, day, m.group) && !HasTrace(so, m.trace)
    ensures LedgerOk(c, so + [m])
    ensures LedgerTotal(c, so + [m], account, channel) == LedgerTotal(c, so, account, channel)
  {
    SameDetailsSameAggregate(c, rows, so, day, m.group);
    AppendKeepsTotals(c, so, day, m.group, account, channel);
    AppendKeepsLedgerOk(c, so, m);
  }

  lemma {:induction false} PassKeepsTotals(c: Calendar, rows: seq<Row>, more: seq<Row>, from: int, until: int,
          account: string, channel: string)
    requires LedgerOk(c, rows)
    requires forall m :: m in more ==> IsDue(c, rows, from, until, m)
    ensures LedgerOk(c, AppendMissing(rows, more))
    ensures LedgerTotal(c, AppendMissing(rows, more), account, channel) == LedgerTotal(c, rows, account, channel)
  {
    if more != [] {
      var init, last := more[..|more| - 1], more[|more| - 1];
      assert last in more && forall m :: m in init ==> m in more;
      PassKeepsTotals(c, rows, init, from, until, account, channel);
      AppendMissingKeepsDetails(rows, init);
      var so := AppendMissing(rows, init);
      if !HasTrace(so, last.trace) {
        var d :| from <= d < until && last == AggregateRow(c, rows, d, last.group);
        AppendDueKeeps(c, rows, so, last, d, account, channel);
      }
    }
  }
}
