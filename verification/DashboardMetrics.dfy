/** Dashboard counters in days and hours: recording, backfilling, pruning and summing them. */
module DashboardMetrics {
  import opened Sequences

  const RETENTION_DAYS := 30

  // ---- Buckets ----

  datatype Counter =
    | ByEndpoint(name: string) | ByModel(name: string) | ByStatus(name: string) | ByErrorCode(name: string)
    | TotalTime(name: string) | TimeCount(name: string)

  datatype Bucket = Bucket(total: int, success: int, failed: int, rateLimited: int, textReview: int, named: map<Counter, int>)

  /** A number that a bucket holds. */
  datatype Field = Total | Success | Failed | RateLimited | TextReview | Named(counter: Counter)

  function Empty(): Bucket {
    Bucket(0, 0, 0, 0, 0, map[])
  }

  function Count(named: map<Counter, int>, c: Counter): int {
    if c in named then named[c] else 0
  }

  function Value(b: Bucket, f: Field): int {
    match f
    case Total => b.total
    case Success => b.success
    case Failed => b.failed
    case RateLimited => b.rateLimited
    case TextReview => b.textReview
    case Named(c) => Count(b.named, c)
  }

  // ---- Calls ----

  /** What the counters read from a log entry: its hour (none if its time cannot be read), its labels, and
      how it is classified; the duration is in milliseconds. */
  datatype Call = Call(hour: Option<int>, status: string, endpoint: string, model: string, isModel: bool, errorCode: string,
                       review: bool, failure: bool, limited: bool, duration: Option<int>)

  function DayOf(call: Call): int
    requires call.hour.Some?
  {
    call.hour.value / 24
  }

  function HourOf(call: Call): nat
    requires call.hour.Some?
    ensures HourOf(call) < 24
  {
    call.hour.value % 24
  }

  function Add(named: map<Counter, int>, c: Counter, n: int): map<Counter, int> {
    named[c := Count(named, c) + n]
  }

  function AddIf(named: map<Counter, int>, yes: bool, c: Counter, n: int): map<Counter, int> {
    if yes then Add(named, c, n) else named
  }

  predicate IsTimed(call: Call) {
    call.isModel && call.duration.Some?
  }

  function Millis(call: Call): int {
    if call.duration.Some? then Max(0, call.duration.value) else 0
  }

  predicate IsPath(endpoint: string) {
    endpoint != "" && endpoint[0] == '/'
  }

  function NamedAfter(named: map<Counter, int>, call: Call): map<Counter, int> {
    var a := AddIf(named, call.status != "", ByStatus(call.status), 1);
    var b := AddIf(a, IsPath(call.endpoint), ByEndpoint(call.endpoint), 1);
    var c := AddIf(b, call.isModel, ByModel(call.model), 1);
    var d := AddIf(c, IsTimed(call), TotalTime(call.model), Millis(call));
    var e := AddIf(d, IsTimed(call), TimeCount(call.model), 1);
    AddIf(e, call.errorCode != "", ByErrorCode(call.errorCode), 1)
  }

  /** What a call adds to a field, whatever the bucket. */
  function Share(call: Call, f: Field): int {
    match f
    case Total => 1
    case Success => if !call.review && !call.failure then 1 else 0
    case Failed => if !call.review && call.failure then 1 else 0
    case RateLimited => if !call.review && call.failure && call.limited then 1 else 0
    case TextReview => if call.review then 1 else 0
    case Named(ByStatus(name)) => if call.status != "" && call.status == name then 1 else 0
    case Named(ByEndpoint(name)) => if IsPath(call.endpoint) && call.endpoint == name then 1 else 0
    case Named(ByModel(name)) => if call.isModel && call.model == name then 1 else 0
    case Named(ByErrorCode(name)) => if call.errorCode != "" && call.errorCode == name then 1 else 0
    case Named(TotalTime(name)) => if IsTimed(call) && call.model == name then Millis(call) else 0
    case Named(TimeCount(name)) => if IsTimed(call) && call.model == name then 1 else 0
  }

  /** The four outcomes of `_apply_call`, and its labels. */
  function Applied(b: Bucket, call: Call): Bucket {
    var counted := b.(total := b.total + 1, named := NamedAfter(b.named, call));
    if call.review then counted.(textReview := b.textReview + 1)
    else if call.failure then counted.(failed := b.failed + 1, rateLimited := b.rateLimited + if call.limited then 1 else 0)
    else counted.(success := b.success + 1)
  }

  lemma AddIfAdds(named: map<Counter, int>, yes: bool, c: Counter, n: int, k: Counter)
    ensures Count(AddIf(named, yes, c, n), k) == Count(named, k) + if yes && k == c then n else 0
  {
  }

  lemma NamedAdds(named: map<Counter, int>, call: Call, k: Counter)
    ensures Count(NamedAfter(named, call), k) == Count(named, k) + Share(call, Named(k))
  {
    var a := AddIf(named, call.status != "", ByStatus(call.status), 1);
    AddIfAdds(named, call.status != "", ByStatus(call.status), 1, k);
    var b := AddIf(a, IsPath(call.endpoint), ByEndpoint(call.endpoint), 1);
    AddIfAdds(a, IsPath(call.endpoint), ByEndpoint(call.endpoint), 1, k);
    var c := AddIf(b, call.isModel, ByModel(call.model), 1);
    AddIfAdds(b, call.isModel, ByModel(call.model), 1, k);
    var d := AddIf(c, IsTimed(call), TotalTime(call.model), Millis(call));
    AddIfAdds(c, IsTimed(call), TotalTime(call.model), Millis(call), k);
    var e := AddIf(d, IsTimed(call), TimeCount(call.model), 1);
    AddIfAdds(d, IsTimed(call), TimeCount(call.model), 1, k);
    AddIfAdds(e, call.errorCode != "", ByErrorCode(call.errorCode), 1, k);
  }

  /** A call adds its share to every field of a bucket, and nothing else. */
  lemma AppliedAdds(b: Bucket, call: Call, f: Field)
    ensures Value(Applied(b, call), f) == Value(b, f) + Share(call, f)
  {
    if f.Named? {
      NamedAdds(b.named, call, f.counter);
      assert Applied(b, call).named == NamedAfter(b.named, call);
    }
  }

  /** Every call has exactly one outcome, and a rate limit is a failure. */
  lemma OneOutcome(call: Call)
    ensures Share(call, Total) == Share(call, Success) + Share(call, Failed) + Share(call, TextReview)
    ensures 0 <= Share(call, RateLimited) <= Share(call, Failed)
  {
  }

  /** `_merge_bucket`: text reviews are not carried over. */
  function Merged(target: Bucket, source: Bucket): Bucket {
    Bucket(target.total + source.total, target.success + source.success, target.failed + source.failed,
           target.rateLimited + source.rateLimited, target.textReview,
           map c | c in target.named.Keys + source.named.Keys :: Count(target.named, c) + Count(source.named, c))
  }

  lemma MergedAdds(a: Bucket, b: Bucket, f: Field)
    ensures Value(Merged(a, b), f) == Value(a, f) + if f == TextReview then 0 else Value(b, f)
  {
  }

  // ---- Days ----

  datatype Day = Day(bucket: Bucket, hours: map<nat, Bucket>)

  type Days = map<int, Day>

  function DayAt(days: Days, d: int): Day {
    if d in days then days[d] else Day(Empty(), map[])
  }

  function HourAt(day: Day, h: nat): Bucket {
    if h in day.hours then day.hours[h] else Empty()
  }

  /** The sum of a field over the first `n` hours of a day. */
  function HourSum(day: Day, n: nat, f: Field): int {
    if n == 0 then 0 else HourSum(day, n - 1, f) + Value(HourAt(day, n - 1), f)
  }

  /** A call put into its day and its hour. */
  function Recorded(days: Days, call: Call): Days {
    if call.hour.None? then days
    else
      var day := DayAt(days, DayOf(call));
      var hour := HourAt(day, HourOf(call));
      days[DayOf(call) := Day(Applied(day.bucket, call), day.hours[HourOf(call) := Applied(hour, call)])]
  }

  predicate InWindow(d: int, today: int) {
    today - (RETENTION_DAYS - 1) <= d <= today
  }

  function Pruned(days: Days, today: int): Days {
    map d | d in days && InWindow(d, today) :: days[d]
  }

  function RecordedAll(days: Days, calls: seq<Call>): Days {
    if calls == [] then days else Recorded(RecordedAll(days, calls[..|calls| - 1]), calls[|calls| - 1])
  }

  // ---- Conservation between days and hours ----

  /** Every call has one outcome. */
  predicate BucketOk(b: Bucket) {
    b.total == b.success + b.failed + b.textReview && b.rateLimited <= b.failed
  }

  ghost predicate DayOk(day: Day) {
    && (forall h :: h in day.hours ==> h < 24 && BucketOk(day.hours[h]))
    && (forall f :: Value(day.bucket, f) == HourSum(day, 24, f))
    && BucketOk(day.bucket)
  }

  ghost predicate DaysOk(days: Days) {
    forall d :: d in days ==> DayOk(days[d])
  }

  lemma {:induction false} HourSumAfter(day: Day, h: nat, b: Bucket, n: nat, f: Field)
    ensures HourSum(Day(day.bucket, day.hours[h := b]), n, f) ==
            HourSum(day, n, f) + if h < n then Value(b, f) - Value(HourAt(day, h), f) else 0
  {
    if n > 0 {
      HourSumAfter(day, h, b, n - 1, f);
    }
  }

  lemma {:induction false} HourSumIgnoresBucket(a: Day, b: Day, n: nat, f: Field)
    requires a.hours == b.hours
    ensures HourSum(a, n, f) == HourSum(b, n, f)
  {
    if n > 0 {
      HourSumIgnoresBucket(a, b, n - 1, f);
    }
  }

  lemma {:induction false} EmptyDayIsOk(bucket: Bucket, n: nat, f: Field)
    ensures HourSum(Day(bucket, map[]), n, f) == 0
  {
    if n > 0 {
      EmptyDayIsOk(bucket, n - 1, f);
    }
  }

  lemma RecordKeepsDay(day: Day, call: Call, h: nat)
    requires DayOk(day) && h < 24
    ensures DayOk(Day(Applied(day.bucket, call), day.hours[h := Applied(HourAt(day, h), call)]))
  {
    var after := Day(Applied(day.bucket, call), day.hours[h := Applied(HourAt(day, h), call)]);
    forall f ensures Value(after.bucket, f) == HourSum(after, 24, f) {
      AppliedAdds(day.bucket, call, f);
      AppliedAdds(HourAt(day, h), call, f);
      HourSumAfter(day, h, Applied(HourAt(day, h), call), 24, f);
      HourSumIgnoresBucket(after, Day(day.bucket, after.hours), 24, f);
    }
  }

  /** Recording a call keeps every day equal to the sum of its hours. */
  lemma RecordKeepsDays(days: Days, call: Call)
    requires DaysOk(days)
    ensures DaysOk(Recorded(days, call))
  {
    if call.hour.Some? {
      var day := DayAt(days, DayOf(call));
      if DayOf(call) !in days {
        forall f ensures Value(day.bucket, f) == HourSum(day, 24, f) {
          EmptyDayIsOk(Empty(), 24, f);
        }
      }
      RecordKeepsDay(day, call, HourOf(call));
    }
  }

  lemma {:induction false} RecordAllKeepsDays(days: Days, calls: seq<Call>)
    requires DaysOk(days)
    ensures DaysOk(RecordedAll(days, calls))
  {
    if calls != [] {
      RecordAllKeepsDays(days, calls[..|calls| - 1]);
      RecordKeepsDays(RecordedAll(days, calls[..|calls| - 1]), calls[|calls| - 1]);
    }
  }

  // ---- Summaries ----

  /** What a counter is about: a day, or an hour counted from the beginning of day 0. */
  datatype Place = WholeDay(d: int) | OneHour(h: int)

  function DayOfPlace(p: Place): int {
    match p
    case WholeDay(d) => d
    case OneHour(h) => h / 24
  }

  function BucketAt(days: Days, p: Place): Bucket {
    match p
    case WholeDay(d) => DayAt(days, d).bucket
    case OneHour(h) => HourBucket(days, h)
  }

  function HourBucket(days: Days, hour: int): Bucket {
    HourAt(DayAt(days, hour / 24), hour % 24)
  }

  predicate Falls(call: Call, p: Place) {
    call.hour.Some? && (if p.WholeDay? then DayOf(call) == p.d else call.hour.value == p.h)
  }

  /** The ranges of a summary. */
  datatype Range = Hours24 | Days7 | Days30

  /** The covered hours or days, the current one last; `now` is the current hour. */
  function Covered(r: Range, now: int): seq<Place> {
    match r
    case Hours24 => seq(24, i => OneHour(now - 23 + i))
    case Days7 => seq(7, i => WholeDay(now / 24 - 6 + i))
    case Days30 => seq(30, i => WholeDay(now / 24 - 29 + i))
  }

  function SummaryOf(days: Days, places: seq<Place>): Bucket {
    if places == [] then Empty()
    else Merged(SummaryOf(days, places[..|places| - 1]), BucketAt(days, places[|places| - 1]))
  }

  /** What the hours of a place add up to. */
  function HoursAt(days: Days, p: Place, f: Field): int {
    match p
    case WholeDay(d) => HourSum(DayAt(days, d), 24, f)
    case OneHour(h) => Value(HourBucket(days, h), f)
  }

  function CoveredHours(days: Days, places: seq<Place>, f: Field): int {
    if places == [] then 0 else CoveredHours(days, places[..|places| - 1], f) + HoursAt(days, places[|places| - 1], f)
  }

  /** Summary totals are the sums over the covered hours. */
  lemma {:induction false} SummaryIsHourSum(days: Days, places: seq<Place>, f: Field)
    requires DaysOk(days) && f != TextReview
    ensures Value(SummaryOf(days, places), f) == CoveredHours(days, places, f)
  {
    if places != [] {
      var init, last := places[..|places| - 1], places[|places| - 1];
      SummaryIsHourSum(days, init, f);
      MergedAdds(SummaryOf(days, init), BucketAt(days, last), f);
      PlaceIsHourSum(days, last, f);
    }
  }

  /** What is missing between the total and the two outcomes of a summary is the number of text reviews. */
  lemma {:induction false} SummaryOutcomes(days: Days, places: seq<Place>)
    requires DaysOk(days)
    ensures var s := SummaryOf(days, places);
            s.total - s.success - s.failed == CoveredHours(days, places, TextReview) && s.rateLimited <= s.failed
  {
    if places != [] {
      SummaryOutcomes(days, places[..|places| - 1]);
      PlaceIsHourSum(days, places[|places| - 1], TextReview);
    }
  }

  lemma PlaceIsHourSum(days: Days, p: Place, f: Field)
    requires DaysOk(days)
    ensures Value(BucketAt(days, p), f) == HoursAt(days, p, f) && BucketOk(BucketAt(days, p))
  {
    if DayOfPlace(p) in days {
      assert DayOk(days[DayOfPlace(p)]);
    } else {
      EmptyDayIsOk(Empty(), 24, f);
    }
  }

  // ---- Runs ----

  datatype Event = Record(call: Call, today: int) | Backfill(items: seq<Call>, today: int) | Look(today: int)

  /** `record_call_log`, `backfill_if_empty`, and a summary, which prunes only its own copy. */
  function Step(days: Days, e: Event): Days {
    match e
    case Record(call, today) => if call.hour.None? then days else Recorded(Pruned(days, today), call)
    case Backfill(items, today) => if days != map[] then days else Pruned(RecordedAll(days, Reverse(items)), today)
    case Look(today) => days
  }

  /** The calls that an event records. */
  function Calls(days: Days, e: Event): seq<Call> {
    match e
    case Record(call, today) => [call]
    case Backfill(items, today) => if days != map[] then [] else Reverse(items)
    case Look(today) => []
  }

  /** What some calls add to a counter of a day or an hour. */
  function ShareSum(calls: seq<Call>, p: Place, f: Field): int {
    if calls == [] then 0
    else
      var last := calls[|calls| - 1];
      ShareSum(calls[..|calls| - 1], p, f) + if Falls(last, p) then Share(last, f) else 0
  }

  lemma {:induction false} ShareSumConcat(a: seq<Call>, b: seq<Call>, p: Place, f: Field)
    ensures ShareSum(a + b, p, f) == ShareSum(a, p, f) + ShareSum(b, p, f)
  {
    if b == [] {
      assert a + b == a;
    } else {
      assert (a + b)[..|a + b| - 1] == a + b[..|b| - 1];
      ShareSumConcat(a, b[..|b| - 1], p, f);
    }
  }

  /** The days after some steps on a file, and the calls recorded by them. */
  function RunDays(start: Days, events: seq<Event>): Days {
    if events == [] then start else Step(RunDays(start, events[..|events| - 1]), events[|events| - 1])
  }

  function Joined(pieces: seq<seq<Call>>): seq<Call> {
    if pieces == [] then [] else Joined(pieces[..|pieces| - 1]) + pieces[|pieces| - 1]
  }

  /** The calls that each step of the run records. */
  function CallPieces(start: Days, events: seq<Event>): (r: seq<seq<Call>>)
    ensures |r| == |events|
  {
    seq(|events|, i requires 0 <= i < |events| => Calls(RunDays(start, events[..i]), events[i]))
  }

  function RunCalls(start: Days, events: seq<Event>): seq<Call> {
    Joined(CallPieces(start, events))
  }

  lemma PruneKeepsDays(days: Days, today: int)
    requires DaysOk(days)
    ensures DaysOk(Pruned(days, today))
  {
  }

  /** In every run of records, backfills and prunes on a consistent file, every day equals the sum of its
      hours. */
  lemma {:induction false} DaysEqualHoursInEveryRun(start: Days, events: seq<Event>)
    requires DaysOk(start)
    ensures DaysOk(RunDays(start, events))
  {
    if events != [] {
      var days, e := RunDays(start, events[..|events| - 1]), events[|events| - 1];
      DaysEqualHoursInEveryRun(start, events[..|events| - 1]);
      match e
      case Record(call, today) =>
        PruneKeepsDays(days, today);
        RecordKeepsDays(Pruned(days, today), call);
      case Backfill(items, today) =>
        RecordAllKeepsDays(days, Reverse(items));
        PruneKeepsDays(RecordedAll(days, Reverse(items)), today);
      case Look(today) =>
    }
  }

  // ---- Which calls count ----

  lemma RecordedShare(days: Days, call: Call, p: Place, f: Field)
    ensures Value(BucketAt(Recorded(days, call), p), f) ==
            Value(BucketAt(days, p), f) + if Falls(call, p) then Share(call, f) else 0
  {
    if call.hour.Some? {
      AppliedAdds(DayAt(days, DayOf(call)).bucket, call, f);
      AppliedAdds(HourBucket(days, call.hour.value), call, f);
    }
  }

  lemma {:induction false} RecordedAllShare(days: Days, calls: seq<Call>, p: Place, f: Field)
    ensures Value(BucketAt(RecordedAll(days, calls), p), f) == Value(BucketAt(days, p), f) + ShareSum(calls, p, f)
  {
    if calls != [] {
      RecordedAllShare(days, calls[..|calls| - 1], p, f);
      RecordedShare(RecordedAll(days, calls[..|calls| - 1]), calls[|calls| - 1], p, f);
    }
  }

  lemma PrunedShare(days: Days, today: int, p: Place, f: Field)
    ensures Value(BucketAt(Pruned(days, today), p), f) ==
            if InWindow(DayOfPlace(p), today) then Value(BucketAt(days, p), f) else 0
  {
    assert Value(Empty(), f) == 0;
  }

  lemma OneCallShare(call: Call, p: Place, f: Field)
    ensures ShareSum([call], p, f) == if Falls(call, p) then Share(call, f) else 0
  {
    assert [call][..0] == [];
  }

  /** The step prunes the file for good. */
  predicate Prunes(days: Days, e: Event) {
    (e.Record? && e.call.hour.Some?) || (e.Backfill? && days == map[])
  }

  /** The step prunes the day `d`. */
  predicate Drops(days: Days, e: Event, d: int) {
    Prunes(days, e) && !InWindow(d, e.today)
  }

  /** No prune of the run from step `i` on drops the day `d`. */
  ghost predicate Survives(start: Days, events: seq<Event>, i: nat, d: int) {
    forall j :: i <= j < |events| ==> !Drops(RunDays(start, events[..j]), events[j], d)
  }

  /** The first prune that a call recorded at step `i` has to survive: a record prunes before it counts its
      call, a backfill afterwards. */
  function FirstPrune(e: Event, i: nat): nat {
    if e.Backfill? then i else i + 1
  }

  /** The calls of step `i`, if their day `d` is in the window of every later prune of the run. */
  ghost function SurvivingAt(start: Days, events: seq<Event>, i: nat, d: int): seq<Call>
    requires i < |events|
  {
    if Survives(start, events, FirstPrune(events[i], i), d) then Calls(RunDays(start, events[..i]), events[i]) else []
  }

  ghost function Pieces(start: Days, events: seq<Event>, n: nat, d: int): seq<seq<Call>>
    requires n <= |events|
  {
    seq(n, i requires 0 <= i < |events| => SurvivingAt(start, events, i, d))
  }

  /** What survives of the calls of the first `n` steps. */
  ghost function Surviving(start: Days, events: seq<Event>, n: nat, d: int): seq<Call>
    requires n <= |events|
  {
    Joined(Pieces(start, events, n, d))
  }

  lemma SurvivingNext(start: Days, events: seq<Event>, m: nat, n: nat, d: int)
    requires n <= |events| && n == m + 1
    ensures Surviving(start, events, n, d) == Surviving(start, events, m, d) + SurvivingAt(start, events, m, d)
  {
    assert Pieces(start, events, n, d)[..m] == Pieces(start, events, m, d);
  }

  lemma {:induction false} NothingJoined(pieces: seq<seq<Call>>)
    requires forall i :: 0 <= i < |pieces| ==> pieces[i] == []
    ensures Joined(pieces) == []
  {
    if pieces != [] {
      NothingJoined(pieces[..|pieces| - 1]);
    }
  }

  lemma SurvivesStep(start: Days, events: seq<Event>, i: nat, d: int)
    requires events != [] && i < |events|
    ensures var init, e := events[..|events| - 1], events[|events| - 1];
            Survives(start, events, i, d) <==> Survives(start, init, i, d) && !Drops(RunDays(start, init), e, d)
  {
    var init := events[..|events| - 1];
    forall j | 0 <= j < |init| ensures init[..j] == events[..j] && init[j] == events[j] {
    }
  }

  lemma SurvivingAtStep(start: Days, events: seq<Event>, init: seq<Event>, e: Event, i: nat, d: int)
    requires events == init + [e] && i < |init|
    ensures SurvivingAt(start, events, i, d) == if Drops(RunDays(start, init), e, d) then [] else SurvivingAt(start, init, i, d)
  {
    assert events[..|events| - 1] == init && init[..i] == events[..i];
    SurvivesStep(start, events, FirstPrune(events[i], i), d);
  }

  /** One more step drops what survived so far, or keeps it. */
  lemma SurvivingDropped(start: Days, events: seq<Event>, init: seq<Event>, e: Event, d: int)
    requires events == init + [e] && Drops(RunDays(start, init), e, d)
    ensures Surviving(start, events, |init|, d) == []
  {
    forall i: nat | i < |init| ensures SurvivingAt(start, events, i, d) == [] {
      SurvivingAtStep(start, events, init, e, i, d);
    }
    NothingJoined(Pieces(start, events, |init|, d));
  }

  lemma SurvivingKept(start: Days, events: seq<Event>, init: seq<Event>, e: Event, d: int)
    requires events == init + [e] && !Drops(RunDays(start, init), e, d)
    ensures Surviving(start, events, |init|, d) == Surviving(start, init, |init|, d)
  {
    forall i: nat | i < |init| ensures SurvivingAt(start, events, i, d) == SurvivingAt(start, init, i, d) {
      SurvivingAtStep(start, events, init, e, i, d);
    }
    assert Pieces(start, events, |init|, d) == Pieces(start, init, |init|, d);
  }

  /** What one step adds to a counter, and when it drops what was there. */
  lemma StepShare(days: Days, e: Event, p: Place, f: Field)
    ensures var dropped := Drops(days, e, DayOfPlace(p));
            Value(BucketAt(Step(days, e), p), f) ==
            (if dropped then 0 else Value(BucketAt(days, p), f)) +
            if dropped && e.Backfill? then 0 else ShareSum(Calls(days, e), p, f)
  {
    match e
    case Record(call, today) =>
      OneCallShare(call, p, f);
      PrunedShare(days, today, p, f);
      RecordedShare(Pruned(days, today), call, p, f);
    case Backfill(items, today) =>
      RecordedAllShare(days, Reverse(items), p, f);
      PrunedShare(RecordedAll(days, Reverse(items)), today, p, f);
      assert Value(Empty(), f) == 0;
    case Look(today) =>
  }

  /** The calls of the last step that are not dropped by the step itself. */
  function LastCalls(start: Days, events: seq<Event>, d: int): seq<Call>
    requires events != []
  {
    var days, e := RunDays(start, events[..|events| - 1]), events[|events| - 1];
    if Drops(days, e, d) && e.Backfill? then [] else Calls(days, e)
  }

  lemma LastSurvives(start: Days, events: seq<Event>, d: int)
    requires events != []
    ensures Surviving(start, events, |events|, d) == Surviving(start, events, |events| - 1, d) + LastCalls(start, events, d)
  {
    SurvivingNext(start, events, |events| - 1, |events|, d);
    if events[|events| - 1].Backfill? {
      SurvivesStep(start, events, |events| - 1, d);
    }
  }

  /** What a run leaves of a counter: what the file held at first, if that survives every prune, and the shares
      of the calls that survive the prunes after them. */
  ghost function Left(start: Days, events: seq<Event>, p: Place, f: Field): int {
    (if Survives(start, events, 0, DayOfPlace(p)) then Value(BucketAt(start, p), f) else 0) +
    ShareSum(Surviving(start, events, |events|, DayOfPlace(p)), p, f)
  }

  lemma LeftStep(start: Days, events: seq<Event>, init: seq<Event>, e: Event, p: Place, f: Field)
    requires events == init + [e]
    ensures var dropped := Drops(RunDays(start, init), e, DayOfPlace(p));
            Left(start, events, p, f) ==
            (if dropped then 0 else Left(start, init, p, f)) +
            if dropped && e.Backfill? then 0 else ShareSum(Calls(RunDays(start, init), e), p, f)
  {
    var d := DayOfPlace(p);
    assert events[..|events| - 1] == init && events[|init|] == e;
    SurvivesStep(start, events, 0, d);
    LastSurvives(start, events, d);
    ShareSumConcat(Surviving(start, events, |init|, d), LastCalls(start, events, d), p, f);
    if Drops(RunDays(start, init), e, d) {
      SurvivingDropped(start, events, init, e, d);
    } else {
      SurvivingKept(start, events, init, e, d);
    }
  }

  lemma NothingHappened(start: Days, events: seq<Event>, p: Place, f: Field)
    requires events == []
    ensures Value(BucketAt(RunDays(start, events), p), f) == Left(start, events, p, f)
  {
  }

  lemma CountStep(start: Days, events: seq<Event>, init: seq<Event>, e: Event, p: Place, f: Field)
    requires events == init + [e] && Value(BucketAt(RunDays(start, init), p), f) == Left(start, init, p, f)
    ensures Value(BucketAt(RunDays(start, events), p), f) == Left(start, events, p, f)
  {
    assert events[..|events| - 1] == init;
    LeftStep(start, events, init, e, p, f);
    StepShare(RunDays(start, init), e, p, f);
  }

  /** Over every run on any file, a counter of a day or of an hour is the sum of the shares of exactly those
      calls whose day is in the window of every prune that came after them, each counted once, and of what
      the file held at first if that survived every prune. In particular a call recorded before its day has
      begun is lost by a prune that comes before that day. */
  lemma {:induction false} CallsCountExactly(start: Days, events: seq<Event>, p: Place, f: Field)
    ensures Value(BucketAt(RunDays(start, events), p), f) == Left(start, events, p, f)
  {
    if events == [] {
      NothingHappened(start, events, p, f);
    } else {
      var init, e := events[..|events| - 1], events[|events| - 1];
      CallsCountExactly(start, init, p, f);
      CountStep(start, events, init, e, p, f);
    }
  }

  lemma AllSurvive(start: Days, events: seq<Event>, d: int)
    requires Survives(start, events, 0, d)
    ensures Surviving(start, events, |events|, d) == RunCalls(start, events)
  {
    assert Pieces(start, events, |events|, d) == CallPieces(start, events);
  }

  /** As long as no prune drops the day, every call of the run counts exactly once. */
  lemma EveryCallCounts(start: Days, events: seq<Event>, p: Place, f: Field)
    requires Survives(start, events, 0, DayOfPlace(p))
    ensures Value(BucketAt(RunDays(start, events), p), f) == Value(BucketAt(start, p), f) + ShareSum(RunCalls(start, events), p, f)
  {
    CallsCountExactly(start, events, p, f);
    AllSurvive(start, events, DayOfPlace(p));
  }

  /** The shares of the surviving calls of a run in some hours or days. */
  ghost function CoveredCalls(events: seq<Event>, places: seq<Place>, f: Field): int {
    if places == [] then 0
    else
      var last := places[|places| - 1];
      CoveredCalls(events, places[..|places| - 1], f) + ShareSum(Surviving(map[], events, |events|, DayOfPlace(last)), last, f)
  }

  lemma {:induction false} PlacesCountCalls(events: seq<Event>, today: int, places: seq<Place>, f: Field)
    requires f != TextReview && forall p :: p in places ==> InWindow(DayOfPlace(p), today)
    ensures Value(SummaryOf(Pruned(RunDays(map[], events), today), places), f) == CoveredCalls(events, places, f)
  {
    if places != [] {
      var kept, init, last := Pruned(RunDays(map[], events), today), places[..|places| - 1], places[|places| - 1];
      PlacesCountCalls(events, today, init, f);
      MergedAdds(SummaryOf(kept, init), BucketAt(kept, last), f);
      PrunedShare(RunDays(map[], events), today, last, f);
      CallsCountExactly(map[], events, last, f);
      assert Value(Empty(), f) == 0;
    }
  }

  /** Over every run from an empty file, the totals of a summary are the sums of the shares of exactly those
      calls that fall into the covered hours or days and survived every prune after them. */
  lemma SummaryCountsCalls(events: seq<Event>, r: Range, now: int, f: Field)
    requires f != TextReview
    ensures Value(SummaryOf(Pruned(RunDays(map[], events), now / 24), Covered(r, now)), f) ==
            CoveredCalls(events, Covered(r, now), f)
  {
    PlacesCountCalls(events, now / 24, Covered(r, now), f);
  }

  // ---- What a summary shows ----

  /** The call lies in the range: in the last twenty-four hours with the current one, or in the last seven or
      thirty days with today. */
  predicate IsRecent(call: Call, r: Range, now: int) {
    call.hour.Some? &&
    match r
    case Hours24 => now - 24 < call.hour.value <= now
    case Days7 => now / 24 - 7 < call.hour.value / 24 <= now / 24
    case Days30 => now / 24 - 30 < call.hour.value / 24 <= now / 24
  }

  /** In how many of the places the call falls. */
  function FallsIn(call: Call, places: seq<Place>): nat {
    if places == [] then 0
    else FallsIn(call, places[..|places| - 1]) + if Falls(call, places[|places| - 1]) then 1 else 0
  }

  /** Consecutive places of one kind, the first of them at `first`. */
  predicate IsStretch(places: seq<Place>, byDay: bool, first: int) {
    forall i :: 0 <= i < |places| ==> places[i] == if byDay then WholeDay(first + i) else OneHour(first + i)
  }

  lemma {:induction false} StretchFalls(call: Call, places: seq<Place>, byDay: bool, first: int)
    requires IsStretch(places, byDay, first)
    ensures FallsIn(call, places) ==
            if call.hour.Some? && first <= (if byDay then call.hour.value / 24 else call.hour.value) < first + |places| then 1 else 0
  {
    if places != [] {
      StretchFalls(call, places[..|places| - 1], byDay, first);
    }
  }

  lemma CoveredOnce(call: Call, r: Range, now: int)
    ensures FallsIn(call, Covered(r, now)) == if IsRecent(call, r, now) then 1 else 0
  {
    match r
    case Hours24 => StretchFalls(call, Covered(r, now), false, now - 23);
    case Days7 => StretchFalls(call, Covered(r, now), true, now / 24 - 6);
    case Days30 => StretchFalls(call, Covered(r, now), true, now / 24 - 29);
  }

  /** What some calls add to the counters of some places. */
  function PlacesShare(calls: seq<Call>, places: seq<Place>, f: Field): int {
    if places == [] then 0 else PlacesShare(calls, places[..|places| - 1], f) + ShareSum(calls, places[|places| - 1], f)
  }

  lemma {:induction false} PlacesShareStep(calls: seq<Call>, call: Call, places: seq<Place>, f: Field)
    ensures PlacesShare(calls + [call], places, f) == PlacesShare(calls, places, f) + FallsIn(call, places) * Share(call, f)
  {
    if places != [] {
      var init, last := places[..|places| - 1], places[|places| - 1];
      PlacesShareStep(calls, call, init, f);
      assert (calls + [call])[..|calls|] == calls;
      OneMoreTimes(FallsIn(call, init), if Falls(call, last) then 1 else 0, Share(call, f));
    }
  }

  lemma OneMoreTimes(n: int, m: int, x: int)
    ensures (n + m) * x == n * x + m * x
  {
  }

  /** What the recent ones of some calls add to a field. */
  function RecentShare(calls: seq<Call>, r: Range, now: int, f: Field): int {
    if calls == [] then 0
    else
      var last := calls[|calls| - 1];
      RecentShare(calls[..|calls| - 1], r, now, f) + if IsRecent(last, r, now) then Share(last, f) else 0
  }

  lemma {:induction false} NothingShared(places: seq<Place>, f: Field)
    ensures PlacesShare([], places, f) == 0
  {
    if places != [] {
      NothingShared(places[..|places| - 1], f);
    }
  }

  lemma {:induction false} PlacesShareIsRecent(calls: seq<Call>, r: Range, now: int, f: Field)
    ensures PlacesShare(calls, Covered(r, now), f) == RecentShare(calls, r, now, f)
  {
    if calls == [] {
      NothingShared(Covered(r, now), f);
    } else {
      var init, last := calls[..|calls| - 1], calls[|calls| - 1];
      PlacesShareIsRecent(init, r, now, f);
      PlacesShareStep(init, last, Covered(r, now), f);
      CoveredOnce(last, r, now);
      assert init + [last] == calls;
    }
  }

  /** The clock does not go back over the run and has not passed the hour `now`, and every call is recorded on its
      day or later. */
  ghost predicate InOrder(events: seq<Event>, now: int) {
    && (forall i, j :: 0 <= i <= j < |events| ==> events[i].today <= events[j].today <= now / 24)
    && (forall i, call :: 0 <= i < |events| && call in CallsOf(events[i]) && call.hour.Some? ==> DayOf(call) <= events[i].today)
  }

  function CallsOf(e: Event): seq<Call> {
    match e
    case Record(call, _) => [call]
    case Backfill(items, _) => items
    case Look(_) => []
  }

  lemma {:induction false} NoneFalls(calls: seq<Call>, p: Place, f: Field)
    requires forall call :: call in calls ==> !Falls(call, p)
    ensures ShareSum(calls, p, f) == 0
  {
    if calls != [] {
      assert calls[|calls| - 1] in calls;
      NoneFalls(calls[..|calls| - 1], p, f);
    }
  }

  lemma CallsAreOf(days: Days, e: Event, call: Call)
    ensures call in Calls(days, e) ==> call in CallsOf(e)
  {
    if e.Backfill? && call in Reverse(e.items) {
      var i :| 0 <= i < |e.items| && Reverse(e.items)[i] == call;
      assert e.items[|e.items| - 1 - i] == call;
    }
  }

  lemma LaterPrunesKeep(events: seq<Event>, now: int, i: nat, d: int)
    requires InOrder(events, now) && i < |events| && now / 24 - 30 < d <= events[i].today
    ensures Survives(map[], events, FirstPrune(events[i], i), d)
  {
    forall j | FirstPrune(events[i], i) <= j < |events| ensures !Drops(RunDays(map[], events[..j]), events[j], d) {
      assert events[i].today <= events[j].today <= now / 24;
    }
  }

  /** What a step adds to a recent place survives. */
  lemma RecentSurvives(events: seq<Event>, now: int, i: nat, p: Place, f: Field)
    requires InOrder(events, now) && i < |events| && now / 24 - 30 < DayOfPlace(p)
    ensures ShareSum(SurvivingAt(map[], events, i, DayOfPlace(p)), p, f) ==
            ShareSum(Calls(RunDays(map[], events[..i]), events[i]), p, f)
  {
    var calls, d := Calls(RunDays(map[], events[..i]), events[i]), DayOfPlace(p);
    if d <= events[i].today {
      LaterPrunesKeep(events, now, i, d);
    } else {
      forall call | call in calls ensures !Falls(call, p) {
        CallsAreOf(RunDays(map[], events[..i]), events[i], call);
      }
      NoneFalls(calls, p, f);
    }
  }

  lemma {:induction false} JoinedShares(a: seq<seq<Call>>, b: seq<seq<Call>>, p: Place, f: Field)
    requires |a| == |b| && forall i :: 0 <= i < |a| ==> ShareSum(a[i], p, f) == ShareSum(b[i], p, f)
    ensures ShareSum(Joined(a), p, f) == ShareSum(Joined(b), p, f)
  {
    if a != [] {
      var m: nat := |a| - 1;
      JoinedShares(a[..m], b[..m], p, f);
      ShareSumConcat(Joined(a[..m]), a[m], p, f);
      ShareSumConcat(Joined(b[..m]), b[m], p, f);
    }
  }

  lemma RecentAllSurvive(events: seq<Event>, now: int, p: Place, f: Field)
    requires InOrder(events, now) && now / 24 - 30 < DayOfPlace(p)
    ensures ShareSum(Surviving(map[], events, |events|, DayOfPlace(p)), p, f) == ShareSum(RunCalls(map[], events), p, f)
  {
    var a, b := Pieces(map[], events, |events|, DayOfPlace(p)), CallPieces(map[], events);
    forall i | 0 <= i < |events| ensures ShareSum(a[i], p, f) == ShareSum(b[i], p, f) {
      RecentSurvives(events, now, i, p, f);
    }
    JoinedShares(a, b, p, f);
  }

  lemma {:induction false} CoveredCallsAreShares(events: seq<Event>, now: int, places: seq<Place>, f: Field)
    requires InOrder(events, now) && forall p :: p in places ==> now / 24 - 30 < DayOfPlace(p)
    ensures CoveredCalls(events, places, f) == PlacesShare(RunCalls(map[], events), places, f)
  {
    if places != [] {
      var last := places[|places| - 1];
      CoveredCallsAreShares(events, now, places[..|places| - 1], f);
      assert last in places;
      RecentAllSurvive(events, now, last, f);
    }
  }

  lemma CoveredAreRecent(r: Range, now: int)
    ensures forall p :: p in Covered(r, now) ==> now / 24 - 30 < DayOfPlace(p)
  {
  }

  /** The calls of the last day, the last seven days or the last thirty days that meet a condition. */
  function RecentCalls(calls: seq<Call>, r: Range, now: int, meets: Call -> bool): nat {
    if calls == [] then 0
    else
      var last := calls[|calls| - 1];
      RecentCalls(calls[..|calls| - 1], r, now, meets) + if IsRecent(last, r, now) && meets(last) then 1 else 0
  }

  /** The condition that a field counts calls by; the duration of calls is summed instead. */
  function Meets(f: Field): Call -> bool {
    match f
    case Total => (call: Call) => true
    case Success => (call: Call) => !call.review && !call.failure
    case Failed => (call: Call) => call.failure && !call.review
    case RateLimited => (call: Call) => call.limited && call.failure && !call.review
    case TextReview => (call: Call) => call.review
    case Named(ByStatus(name)) => (call: Call) => call.status == name && name != ""
    case Named(ByEndpoint(name)) => (call: Call) => call.endpoint == name && name != "" && name[0] == '/'
    case Named(ByModel(name)) => (call: Call) => call.model == name && call.isModel
    case Named(ByErrorCode(name)) => (call: Call) => call.errorCode == name && name != ""
    case Named(TotalTime(name)) => (call: Call) => false
    case Named(TimeCount(name)) => (call: Call) => call.model == name && call.isModel && call.duration.Some?
  }

  lemma CountsWhatMeets(call: Call, f: Field)
    requires !(f.Named? && f.counter.TotalTime?)
    ensures Share(call, f) == if Meets(f)(call) then 1 else 0
  {
  }

  lemma {:induction false} RecentSharesCount(calls: seq<Call>, r: Range, now: int, f: Field)
    requires !(f.Named? && f.counter.TotalTime?)
    ensures RecentShare(calls, r, now, f) == RecentCalls(calls, r, now, Meets(f))
  {
    if calls != [] {
      RecentSharesCount(calls[..|calls| - 1], r, now, f);
      CountsWhatMeets(calls[|calls| - 1], f);
    }
  }

  /** How long the recent calls of a model took together; a negative duration counts as none. */
  function RecentTime(calls: seq<Call>, r: Range, now: int, model: string): int {
    if calls == [] then 0
    else
      var last := calls[|calls| - 1];
      RecentTime(calls[..|calls| - 1], r, now, model) +
      if IsRecent(last, r, now) && last.isModel && last.model == model && last.duration.Some? && last.duration.value > 0
      then last.duration.value else 0
  }

  lemma {:induction false} RecentSharesTime(calls: seq<Call>, r: Range, now: int, model: string)
    ensures RecentShare(calls, r, now, Named(TotalTime(model))) == RecentTime(calls, r, now, model)
  {
    if calls != [] {
      RecentSharesTime(calls[..|calls| - 1], r, now, model);
    }
  }

  /** What a field of a summary is to show: how many of the recent calls meet its condition, or how long they took. */
  function Shown(calls: seq<Call>, r: Range, now: int, f: Field): int {
    match f
    case Named(TotalTime(model)) => RecentTime(calls, r, now, model)
    case _ => RecentCalls(calls, r, now, Meets(f))
  }

  /** From an empty file, over every run whose clock does not go back, a summary shows for each field the calls of
      the last twenty-four hours, seven days or thirty days that meet its condition, each counted once; no prune
      of the run loses any of them. */
  lemma SummaryShowsRecentCalls(events: seq<Event>, r: Range, now: int, f: Field)
    requires f != TextReview && InOrder(events, now)
    ensures Value(SummaryOf(Pruned(RunDays(map[], events), now / 24), Covered(r, now)), f) ==
            Shown(RunCalls(map[], events), r, now, f)
  {
    SummaryCountsCalls(events, r, now, f);
    CoveredAreRecent(r, now);
    CoveredCallsAreShares(events, now, Covered(r, now), f);
    PlacesShareIsRecent(RunCalls(map[], events), r, now, f);
    if f.Named? && f.counter.TotalTime? {
      RecentSharesTime(RunCalls(map[], events), r, now, f.counter.name);
    } else {
      RecentSharesCount(RunCalls(map[], events), r, now, f);
    }
  }

  // ---- The service ----

  lemma SomeDay(s: set<int>)
    requires s != {}
    ensures exists d :: d in s
  {
    if forall d :: d !in s {
      assert false;
    }
  }

  /** `_prune`. */
  method Prune(loaded: Days, today: int) returns (kept: Days)
    ensures kept == Pruned(loaded, today)
    ensures forall d :: d in kept <==> d in loaded && today - 30 < d <= today
  {
    kept := loaded;
    var todo: set<int> := loaded.Keys;
    while todo != {}
      invariant todo <= loaded.Keys
      invariant kept == map d | d in loaded && (d in todo || InWindow(d, today)) :: loaded[d]
      decreases todo
    {
      SomeDay(todo);
      var d :| d in todo;
      todo := todo - {d};
      if d < today - (RETENTION_DAYS - 1) || d > today {
        kept := kept - {d};
      }
    }
  }

  /** One call into its day and its hour, both created when they are missing. */
  method Enter(loaded: Days, call: Call) returns (r: Days)
    ensures r == Recorded(loaded, call)
  {
    if call.hour.None? {
      return loaded;
    }
    var d, h := DayOf(call), HourOf(call);
    var day := if d in loaded then loaded[d] else Day(Empty(), map[]);
    var hour := if h in day.hours then day.hours[h] else Empty();
    r := loaded[d := Day(Applied(day.bucket, call), day.hours[h := Applied(hour, call)])];
  }

  /** The loop over the hours or days of a summary. */
  method MergePlaces(loaded: Days, places: seq<Place>) returns (total: Bucket)
    ensures total == SummaryOf(loaded, places)
  {
    total := Empty();
    for i := 0 to |places|
      invariant total == SummaryOf(loaded, places[..i])
    {
      assert places[..i + 1][..i] == places[..i];
      total := Merged(total, BucketAt(loaded, places[i]));
    }
    assert places[..|places|] == places;
  }

  class DashboardMetrics {
    var days: Days

    constructor ()
      ensures days == map[] && DaysOk(days)
    {
      days := map[];
    }

    /** `record_call_log`. */
    method RecordCall(call: Call, today: int)
      modifies this
      ensures days == Step(old(days), Record(call, today))
      ensures old(DaysOk(days)) ==> DaysOk(days)
    {
      ghost var was := days;
      if call.hour.Some? {
        var kept := Prune(days, today);
        days := Enter(kept, call);
      }
      if DaysOk(was) {
        PruneKeepsDays(was, today);
        RecordKeepsDays(Pruned(was, today), call);
      }
    }

    /** `backfill_if_empty`: the items come newest first. */
    method BackfillIfEmpty(items: seq<Call>, today: int)
      modifies this
      ensures days == Step(old(days), Backfill(items, today))
      ensures old(DaysOk(days)) ==> DaysOk(days)
    {
      if days != map[] {
        return;
      }
      var filled := Prune(days, today);
      var calls := Reverse(items);
      for i := 0 to |calls|
        invariant filled == RecordedAll(map[], calls[..i])
      {
        assert calls[..i + 1][..i] == calls[..i];
        filled := Enter(filled, calls[i]);
      }
      assert calls[..|calls|] == calls;
      RecordAllKeepsDays(map[], calls);
      PruneKeepsDays(filled, today);
      days := Prune(filled, today);
    }

    /** The totals of `summary`. */
    method Summary(r: Range, now: int) returns (total: Bucket)
      requires DaysOk(days)
      ensures total == SummaryOf(Pruned(days, now / 24), Covered(r, now))
      ensures forall f :: f != TextReview ==> Value(total, f) == CoveredHours(Pruned(days, now / 24), Covered(r, now), f)
      ensures total.total - total.success - total.failed == CoveredHours(Pruned(days, now / 24), Covered(r, now), TextReview)
    {
      var loaded := Prune(days, now / 24);
      total := MergePlaces(loaded, Covered(r, now));
      SummaryOfPruned(days, now / 24, Covered(r, now));
    }
  }

  lemma SummaryOfPruned(days: Days, today: int, places: seq<Place>)
    requires DaysOk(days)
    ensures var s, kept := SummaryOf(Pruned(days, today), places), Pruned(days, today);
            && (forall f :: f != TextReview ==> Value(s, f) == CoveredHours(kept, places, f))
            && s.total - s.success - s.failed == CoveredHours(kept, places, TextReview)
  {
    PruneKeepsDays(days, today);
    var kept := Pruned(days, today);
    forall f | f != TextReview ensures Value(SummaryOf(kept, places), f) == CoveredHours(kept, places, f) {
      SummaryIsHourSum(kept, places, f);
    }
    SummaryOutcomes(kept, places);
  }
}
