/** Pool evaluation: health metrics of the account pool and the loop that checks stale accounts in
    batches until a target is met or nothing is stale. */
module PoolHealth {
  import opened Sequences
  import AliasGraph

  type Token = AliasGraph.Token

  /** A copy of the fields of an account that the evaluation reads: `list_accounts` hands out copies, and
      these are not the fields that selection and accounting use. Times are seconds. */
  datatype Snapshot = Snapshot(
    token: Token, normal: bool, quota: nat, quotaUnknown: bool,
    checkedAt: Option<int>, attemptedAt: Option<int>)

  predicate Within(at: Option<int>, now: int, freshness: nat) {
    at.Some? && 0 <= now - at.value <= freshness
  }

  predicate IsFresh(a: Snapshot, now: int, freshness: nat) {
    Within(a.checkedAt, now, freshness)
  }

  /** Worth checking: usable, neither confirmed nor tried within the window. */
  predicate IsStale(a: Snapshot, now: int, freshness: nat) {
    a.normal && a.token != "" && !IsFresh(a, now, freshness) && !Within(a.attemptedAt, now, freshness)
  }

  // ---- Metrics ----

  datatype Metrics = Metrics(
    currentQuota: nat, currentAvailable: nat, estimatedQuota: nat, estimatedAvailable: nat,
    unconfirmedAvailable: nat, unknownQuota: nat, lastChecked: Option<int>)

  function QuotaSum(s: seq<Snapshot>): nat {
    if s == [] then 0 else QuotaSum(s[..|s| - 1]) + s[|s| - 1].quota
  }

  function NormalTest(): Snapshot -> bool { (a: Snapshot) => a.normal }

  function FreshTest(now: int, freshness: nat): Snapshot -> bool {
    (a: Snapshot) => a.normal && IsFresh(a, now, freshness)
  }

  function KnownTest(): Snapshot -> bool { (a: Snapshot) => a.normal && !a.quotaUnknown }

  function FreshKnownTest(now: int, freshness: nat): Snapshot -> bool {
    (a: Snapshot) => a.normal && IsFresh(a, now, freshness) && !a.quotaUnknown
  }

  /** What the metrics mean, as counts and sums over the accounts. */
  ghost predicate Measures(m: Metrics, s: seq<Snapshot>, now: int, freshness: nat) {
    NumbersOf(m, s, now, freshness) && LatestOf(m.lastChecked, s)
  }

  /** The latest confirmation time of any account, usable or not. */
  ghost predicate LatestOf(latest: Option<int>, s: seq<Snapshot>) {
    && (forall a :: a in s && a.checkedAt.Some? ==> latest.Some? && a.checkedAt.value <= latest.value)
    && (latest.Some? ==> exists a :: a in s && a.checkedAt == latest)
  }

  ghost predicate NumbersOf(m: Metrics, s: seq<Snapshot>, now: int, freshness: nat) {
    Numbers(m, |Filter(s, NormalTest())|, |Filter(s, FreshTest(now, freshness))|,
            QuotaSum(Filter(s, KnownTest())), QuotaSum(Filter(s, FreshKnownTest(now, freshness))),
            |Filter(s, FreshKnownTest(now, freshness))|)
  }

  predicate Numbers(m: Metrics, normal: nat, confirmed: nat, knownQuota: nat, confirmedQuota: nat, confirmedKnown: nat) {
    && m.estimatedAvailable == normal
    && m.currentAvailable == confirmed
    && m.unconfirmedAvailable == normal - confirmed
    && m.estimatedQuota == knownQuota
    && m.currentQuota == confirmedQuota
    && m.unknownQuota == confirmed - confirmedKnown
  }

  /** One pass of the counting loop. */
  function Counted(m: Metrics, a: Snapshot, now: int, freshness: nat): Metrics {
    var n := if a.checkedAt.Some? && (m.lastChecked.None? || a.checkedAt.value > m.lastChecked.value)
             then m.(lastChecked := a.checkedAt) else m;
    if !a.normal then n
    else
      var e := n.(estimatedAvailable := n.estimatedAvailable + 1,
                  estimatedQuota := if a.quotaUnknown then n.estimatedQuota else n.estimatedQuota + a.quota);
      if !IsFresh(a, now, freshness) then e.(unconfirmedAvailable := e.unconfirmedAvailable + 1)
      else if a.quotaUnknown then e.(currentAvailable := e.currentAvailable + 1, unknownQuota := e.unknownQuota + 1)
      else e.(currentAvailable := e.currentAvailable + 1, currentQuota := e.currentQuota + a.quota)
  }

  lemma CountedNumbers(m: Metrics, a: Snapshot, now: int, freshness: nat, n: nat, c: nat, q: nat, cq: nat, ck: nat,
          n2: nat, c2: nat, q2: nat, cq2: nat, ck2: nat)
    requires Numbers(m, n, c, q, cq, ck)
    requires n2 == n + (if NormalTest()(a) then 1 else 0) && c2 == c + (if FreshTest(now, freshness)(a) then 1 else 0)
    requires q2 == q + (if KnownTest()(a) then a.quota else 0)
    requires cq2 == cq + (if FreshKnownTest(now, freshness)(a) then a.quota else 0)
    requires ck2 == ck + (if FreshKnownTest(now, freshness)(a) then 1 else 0)
    ensures Numbers(Counted(m, a, now, freshness), n2, c2, q2, cq2, ck2)
  {
  }

  lemma CountedNumbersOf(m: Metrics, s: seq<Snapshot>, i: nat, now: int, freshness: nat)
    requires i < |s| && NumbersOf(m, s[..i], now, freshness)
    ensures NumbersOf(Counted(m, s[i], now, freshness), s[..i + 1], now, freshness)
  {
    var t, u := s[..i], s[..i + 1];
    CountStep(s, i, NormalTest());
    CountStep(s, i, FreshTest(now, freshness));
    CountStep(s, i, KnownTest());
    CountStep(s, i, FreshKnownTest(now, freshness));
    CountedNumbers(m, s[i], now, freshness,
                   |Filter(t, NormalTest())|, |Filter(t, FreshTest(now, freshness))|, QuotaSum(Filter(t, KnownTest())),
                   QuotaSum(Filter(t, FreshKnownTest(now, freshness))), |Filter(t, FreshKnownTest(now, freshness))|,
                   |Filter(u, NormalTest())|, |Filter(u, FreshTest(now, freshness))|, QuotaSum(Filter(u, KnownTest())),
                   QuotaSum(Filter(u, FreshKnownTest(now, freshness))), |Filter(u, FreshKnownTest(now, freshness))|);
  }

  lemma CountedMeasures(m: Metrics, s: seq<Snapshot>, i: nat, now: int, freshness: nat)
    requires i < |s| && Measures(m, s[..i], now, freshness)
    ensures Measures(Counted(m, s[i], now, freshness), s[..i + 1], now, freshness)
  {
    CountedNumbersOf(m, s, i, now, freshness);
    LatestStep(m, s, i, now, freshness);
  }

  lemma CountedQuotas(m: Metrics, a: Snapshot, now: int, freshness: nat)
    ensures m.currentQuota <= m.estimatedQuota ==>
              Counted(m, a, now, freshness).currentQuota <= Counted(m, a, now, freshness).estimatedQuota
  {
  }

  lemma CountStep(s: seq<Snapshot>, i: nat, test: Snapshot -> bool)
    requires i < |s|
    ensures |Filter(s[..i + 1], test)| == |Filter(s[..i], test)| + if test(s[i]) then 1 else 0
    ensures QuotaSum(Filter(s[..i + 1], test)) == QuotaSum(Filter(s[..i], test)) + if test(s[i]) then s[i].quota else 0
  {
    FilterStep(s, i, test);
    if test(s[i]) {
      QuotaAppend(Filter(s[..i], test), s[i]);
    } else {
      assert Filter(s[..i], test) + [] == Filter(s[..i], test);
    }
  }

  lemma LatestStep(m: Metrics, s: seq<Snapshot>, i: nat, now: int, freshness: nat)
    requires i < |s| && LatestOf(m.lastChecked, s[..i])
    ensures LatestOf(Counted(m, s[i], now, freshness).lastChecked, s[..i + 1])
  {
    assert s[..i + 1] == s[..i] + [s[i]];
    assert s[i] in s[..i + 1];
  }

  method ComputeMetrics(accounts: seq<Snapshot>, now: int, freshness: nat) returns (m: Metrics)
    ensures Measures(m, accounts, now, freshness)
    ensures m.currentAvailable + m.unconfirmedAvailable == m.estimatedAvailable
    ensures m.currentQuota <= m.estimatedQuota
  {
    m := Metrics(0, 0, 0, 0, 0, 0, None);
    for i := 0 to |accounts|
      invariant Measures(m, accounts[..i], now, freshness)
      invariant m.currentQuota <= m.estimatedQuota
    {
      CountedMeasures(m, accounts, i, now, freshness);
      CountedQuotas(m, accounts[i], now, freshness);
      m := Counted(m, accounts[i], now, freshness);
    }
    assert accounts[..|accounts|] == accounts;
  }

  lemma QuotaAppend(s: seq<Snapshot>, a: Snapshot)
    ensures QuotaSum(s + [a]) == QuotaSum(s) + a.quota
  {
    assert (s + [a])[..|s|] == s;
  }

  // ---- The stale accounts, oldest confirmation first ----

  predicate NotLater(a: Snapshot, b: Snapshot) {
    a.checkedAt.None? || (b.checkedAt.Some? && a.checkedAt.value <= b.checkedAt.value)
  }

  /** Insertion behind every element that is not later: a stable sort. */
  function InsertByAge(s: seq<Snapshot>, a: Snapshot): (r: seq<Snapshot>)
    ensures |r| == |s| + 1 && forall x :: x in r <==> x in s || x == a
  {
    if s == [] || NotLater(s[|s| - 1], a) then s + [a]
    else InsertByAge(s[..|s| - 1], a) + [s[|s| - 1]]
  }

  ghost predicate SortedByAge(s: seq<Snapshot>) {
    forall i, j :: 0 <= i < j < |s| ==> NotLater(s[i], s[j])
  }

  lemma {:induction false} InsertSorted(s: seq<Snapshot>, a: Snapshot)
    requires SortedByAge(s)
    ensures SortedByAge(InsertByAge(s, a))
  {
    if s != [] && !NotLater(s[|s| - 1], a) {
      var init := s[..|s| - 1];
      InsertSorted(init, a);
      var r := InsertByAge(init, a);
      forall i | 0 <= i < |r| ensures NotLater(r[i], s[|s| - 1]) {
        assert r[i] in r;
      }
    }
  }

  /** The stale accounts, those that waited longest for a confirmation first. */
  function StaleAccounts(s: seq<Snapshot>, now: int, freshness: nat): (r: seq<Snapshot>)
    ensures forall x :: x in r <==> x in s && IsStale(x, now, freshness)
  {
    if s == [] then []
    else
      var rest := StaleAccounts(s[..|s| - 1], now, freshness);
      if IsStale(s[|s| - 1], now, freshness) then InsertByAge(rest, s[|s| - 1]) else rest
  }

  lemma {:induction false} StaleSorted(s: seq<Snapshot>, now: int, freshness: nat)
    ensures SortedByAge(StaleAccounts(s, now, freshness))
  {
    if s != [] {
      StaleSorted(s[..|s| - 1], now, freshness);
      InsertSorted(StaleAccounts(s[..|s| - 1], now, freshness), s[|s| - 1]);
    }
  }

  const BATCH := 10

  function Tokens(s: seq<Snapshot>): (r: seq<Token>)
    ensures |r| == |s| && forall i :: 0 <= i < |s| ==> r[i] == s[i].token
  {
    seq(|s|, i requires 0 <= i < |s| => s[i].token)
  }

  function Batch(s: seq<Snapshot>, now: int, freshness: nat): set<Token> {
    var stale := StaleAccounts(s, now, freshness);
    Elements(Tokens(stale[..Min(BATCH, |stale|)]))
  }

  // ---- One round of remote checks ----

  /** What a check does to the account: it is removed, marked invalid, its failed attempt is
      recorded, or the answer is recorded. The token may have been rotated on the way. */
  datatype Outcome =
    | Gone
    | Invalid(at: int)
    | Errored(at: int, token: Token)
    | Answered(at: int, token: Token, normal: bool, quota: nat, quotaUnknown: bool)

  function Checked(a: Snapshot, o: Outcome): seq<Snapshot> {
    match o
    case Gone => []
    case Invalid(at) => [a.(normal := false, quota := 0, checkedAt := Some(at), attemptedAt := Some(at))]
    case Errored(at, token) => [a.(token := token, attemptedAt := Some(at))]
    case Answered(at, token, normal, quota, unknown) => [Snapshot(token, normal, quota, unknown, Some(at), Some(at))]
  }

  /** What the round makes of one account. */
  function CheckOne(a: Snapshot, batch: set<Token>, w: World, k: nat): (r: seq<Snapshot>)
    ensures |r| <= 1
  {
    if a.token in batch then Checked(a, w.outcome(k, a.token)) else [a]
  }

  /** The clock at each round, and the outcome of each check of a round. */
  datatype World = World(clock: nat -> int, outcome: (nat, Token) -> Outcome)

  function CheckAll(s: seq<Snapshot>, batch: set<Token>, w: World, k: nat): seq<Snapshot> {
    if s == [] then []
    else CheckAll(s[..|s| - 1], batch, w, k) + CheckOne(s[|s| - 1], batch, w, k)
  }

  /** The check happened between two readings of the clock. */
  ghost predicate Timely(w: World, k: nat, from: int, to: int) {
    forall t :: InTime(w.outcome(k, t), from, to)
  }

  predicate InTime(o: Outcome, from: int, to: int) {
    o.Gone? || from <= o.at <= to
  }

  function StaleCount(s: seq<Snapshot>, now: int, freshness: nat): nat {
    if s == [] then 0
    else StaleCount(s[..|s| - 1], now, freshness) + if IsStale(s[|s| - 1], now, freshness) then 1 else 0
  }

  /** No account outside the batch ages out of the window between the two readings. */
  ghost predicate NobodyAges(s: seq<Snapshot>, batch: set<Token>, now: int, later: int, freshness: nat) {
    forall a :: a in s && a.token !in batch && IsStale(a, later, freshness) ==> IsStale(a, now, freshness)
  }

  lemma StaleCountAppend(s: seq<Snapshot>, t: seq<Snapshot>, now: int, freshness: nat)
    requires |t| <= 1
    ensures StaleCount(s + t, now, freshness) == StaleCount(s, now, freshness) + StaleCount(t, now, freshness)
  {
    if t == [] {
      assert s + t == s;
    } else {
      assert (s + t)[..|s + t| - 1] == s && t[..|t| - 1] == [];
    }
  }

  /** A checked account is not stale at the next reading: it is gone, unusable, or was just tried. */
  lemma HandledIsNotStale(a: Snapshot, o: Outcome, now: int, later: int, freshness: nat)
    requires later - now <= freshness
    requires o.Gone? || now <= o.at <= later
    ensures StaleCount(Checked(a, o), later, freshness) == 0
  {
    if !o.Gone? {
      assert Checked(a, o)[..0] == [];
    }
  }

  lemma OneCheckStale(a: Snapshot, batch: set<Token>, w: World, k: nat, now: int, later: int, freshness: nat)
    requires Timely(w, k, now, later) && later - now <= freshness
    requires a.token !in batch && IsStale(a, later, freshness) ==> IsStale(a, now, freshness)
    ensures StaleCount(CheckOne(a, batch, w, k), later, freshness) <= if IsStale(a, now, freshness) then 1 else 0
    ensures a.token in batch ==> StaleCount(CheckOne(a, batch, w, k), later, freshness) == 0
  {
    if a.token in batch {
      HandledIsNotStale(a, w.outcome(k, a.token), now, later, freshness);
    } else {
      assert [a][..0] == [];
    }
  }

  /** A round leaves at most the stale accounts outside its batch stale. */
  lemma {:induction false} RoundShrinksStale(s: seq<Snapshot>, batch: set<Token>, w: World, k: nat, now: int, later: int, freshness: nat)
    requires Timely(w, k, now, later) && later - now <= freshness
    requires NobodyAges(s, batch, now, later, freshness)
    ensures StaleCount(CheckAll(s, batch, w, k), later, freshness) <= StaleCount(s, now, freshness)
    ensures (exists a :: a in s && a.token in batch && IsStale(a, now, freshness)) ==>
              StaleCount(CheckAll(s, batch, w, k), later, freshness) < StaleCount(s, now, freshness)
  {
    if s != [] {
      var init, last := s[..|s| - 1], s[|s| - 1];
      assert forall a :: a in s <==> a in init || a == last;
      RoundShrinksStale(init, batch, w, k, now, later, freshness);
      StaleCountAppend(CheckAll(init, batch, w, k), CheckOne(last, batch, w, k), later, freshness);
      OneCheckStale(last, batch, w, k, now, later, freshness);
    }
  }

  lemma BatchIsStale(s: seq<Snapshot>, now: int, freshness: nat)
    requires StaleAccounts(s, now, freshness) != []
    ensures exists a :: a in s && a.token in Batch(s, now, freshness) && IsStale(a, now, freshness)
  {
    var stale := StaleAccounts(s, now, freshness);
    var first := stale[..Min(BATCH, |stale|)];
    assert stale[0] in stale;
    assert Tokens(first)[0] == stale[0].token;
    assert stale[0].token in Batch(s, now, freshness);
  }

  /** While the checks of a round and the confirmations of the other accounts stay inside the
      window, every round strictly lowers the number of stale accounts. */
  lemma RoundStrictlyShrinksStale(s: seq<Snapshot>, w: World, k: nat, now: int, later: int, freshness: nat)
    requires StaleAccounts(s, now, freshness) != []
    requires Timely(w, k, now, later) && later - now <= freshness
    requires NobodyAges(s, Batch(s, now, freshness), now, later, freshness)
    ensures StaleCount(CheckAll(s, Batch(s, now, freshness), w, k), later, freshness) < StaleCount(s, now, freshness)
  {
    BatchIsStale(s, now, freshness);
    RoundShrinksStale(s, Batch(s, now, freshness), w, k, now, later, freshness);
  }

  // ---- The loop ----

  /** Nothing else runs, the clock does not go back, and the first `n` rounds fit in the window. */
  ghost predicate InWindow(w: World, freshness: nat, n: nat) {
    forall k: nat :: k < n ==> RoundFits(w, freshness, k)
  }

  ghost predicate RoundFits(w: World, freshness: nat, k: nat) {
    && w.clock(0) <= w.clock(k) <= w.clock(k + 1) && w.clock(k + 1) - w.clock(0) <= freshness
    && Timely(w, k, w.clock(k), w.clock(k + 1))
  }

  /** Usable and not yet tried since the evaluation began. */
  predicate Untried(a: Snapshot, start: int, now: int) {
    a.normal && !(a.attemptedAt.Some? && start <= a.attemptedAt.value <= now)
  }

  function UntriedCount(s: seq<Snapshot>, start: int, now: int): nat {
    if s == [] then 0
    else UntriedCount(s[..|s| - 1], start, now) + if Untried(s[|s| - 1], start, now) then 1 else 0
  }

  lemma UntriedAppend(s: seq<Snapshot>, t: seq<Snapshot>, start: int, now: int)
    requires |t| <= 1
    ensures UntriedCount(s + t, start, now) == UntriedCount(s, start, now) + UntriedCount(t, start, now)
  {
    if t == [] {
      assert s + t == s;
    } else {
      assert (s + t)[..|s + t| - 1] == s && t[..|t| - 1] == [];
    }
  }

  lemma OneUntried(a: Snapshot, start: int, now: int)
    ensures UntriedCount([a], start, now) == if Untried(a, start, now) then 1 else 0
  {
    assert [a][..0] == [];
  }

  /** A checked account has been tried, is unusable, or is gone. */
  lemma HandledIsTried(a: Snapshot, o: Outcome, start: int, now: int, later: int)
    requires start <= now <= later && (o.Gone? || now <= o.at <= later)
    ensures UntriedCount(Checked(a, o), start, later) == 0
  {
    if !o.Gone? {
      OneUntried(Checked(a, o)[0], start, later);
    }
  }

  lemma OneCheckUntried(a: Snapshot, batch: set<Token>, w: World, k: nat, start: int, now: int, later: int)
    requires Timely(w, k, now, later) && start <= now <= later
    ensures UntriedCount(CheckOne(a, batch, w, k), start, later) <= if Untried(a, start, now) then 1 else 0
    ensures a.token in batch ==> UntriedCount(CheckOne(a, batch, w, k), start, later) == 0
  {
    if a.token in batch {
      HandledIsTried(a, w.outcome(k, a.token), start, now, later);
    } else {
      OneUntried(a, start, later);
    }
  }

  lemma {:induction false} RoundShrinksUntried(s: seq<Snapshot>, batch: set<Token>, w: World, k: nat, start: int, now: int, later: int)
    requires Timely(w, k, now, later) && start <= now <= later
    ensures UntriedCount(CheckAll(s, batch, w, k), start, later) <= UntriedCount(s, start, now)
    ensures (exists a :: a in s && a.token in batch && Untried(a, start, now)) ==>
              UntriedCount(CheckAll(s, batch, w, k), start, later) < UntriedCount(s, start, now)
  {
    if s != [] {
      var init, last := s[..|s| - 1], s[|s| - 1];
      assert forall a :: a in s <==> a in init || a == last;
      RoundShrinksUntried(init, batch, w, k, start, now, later);
      UntriedAppend(CheckAll(init, batch, w, k), CheckOne(last, batch, w, k), start, later);
      OneCheckUntried(last, batch, w, k, start, now, later);
    }
  }

  datatype Target = Target(quota: Option<int>, available: Option<int>)

  predicate TargetReached(m: Metrics, t: Target) {
    || (t.quota.Some? && m.currentQuota >= Max(1, t.quota.value))
    || (t.available.Some? && m.currentAvailable >= Max(1, t.available.value))
  }

  /** The current quota or the current number of available accounts is at its target. */
  ghost predicate Met(s: seq<Snapshot>, now: int, freshness: nat, t: Target) {
    || (t.quota.Some? && QuotaSum(Filter(s, FreshKnownTest(now, freshness))) >= Max(1, t.quota.value))
    || (t.available.Some? && |Filter(s, FreshTest(now, freshness))| >= Max(1, t.available.value))
  }

  /** Why the evaluation stops: it is not to check anything, nothing is due, or a target is reached; a target of
      nothing is reached by the first confirmed account or unit of quota. */
  ghost predicate Stops(m: Metrics, s: seq<Snapshot>, now: int, refreshStale: bool, freshness: nat, t: Target) {
    || !refreshStale
    || (forall a :: a in s ==> !IsDue(a, now, freshness))
    || (t.quota.Some? && m.currentQuota > 0 && t.quota.value <= m.currentQuota)
    || (t.available.Some? && m.currentAvailable > 0 && t.available.value <= m.currentAvailable)
  }

  /** The account is due for a check: it is usable, has a token, and was neither confirmed nor tried in the last
      `freshness` seconds; a time in the future does not count. */
  predicate IsDue(a: Snapshot, now: int, freshness: nat) {
    && a.normal && |a.token| > 0
    && (a.checkedAt.Some? ==> a.checkedAt.value > now || now - a.checkedAt.value > freshness)
    && (a.attemptedAt.Some? ==> a.attemptedAt.value > now || now - a.attemptedAt.value > freshness)
  }

  lemma NothingDue(s: seq<Snapshot>, now: int, freshness: nat)
    ensures StaleAccounts(s, now, freshness) == [] <==> forall a :: a in s ==> !IsDue(a, now, freshness)
  {
    if a :| a in s && IsDue(a, now, freshness) {
      assert a in StaleAccounts(s, now, freshness);
    }
    if StaleAccounts(s, now, freshness) != [] {
      assert StaleAccounts(s, now, freshness)[0] in s;
    }
  }

  /** The loop stops here. */
  ghost predicate Done(s: seq<Snapshot>, now: int, refreshStale: bool, freshness: nat, t: Target) {
    !refreshStale || Met(s, now, freshness, t) || StaleAccounts(s, now, freshness) == []
  }

  /** One round of checks. */
  ghost function NextRound(s: seq<Snapshot>, w: World, freshness: nat, k: nat): seq<Snapshot> {
    CheckAll(s, Batch(s, w.clock(k), freshness), w, k)
  }

  /** The accounts after `n` rounds of checks. */
  ghost function After(s: seq<Snapshot>, w: World, freshness: nat, n: nat): seq<Snapshot> {
    if n == 0 then s else NextRound(After(s, w, freshness, n - 1), w, freshness, n - 1)
  }

  /** What holds at first and is kept by every round holds after any number of rounds. */
  lemma {:induction false} AfterInduction(s: seq<Snapshot>, w: World, freshness: nat, n: nat, holds: (nat, seq<Snapshot>) -> bool)
    requires holds(0, s)
    requires forall k: nat, t :: k < n && holds(k, t) ==> holds(k + 1, NextRound(t, w, freshness, k))
    ensures holds(n, After(s, w, freshness, n))
  {
    if n > 0 {
      AfterInduction(s, w, freshness, n - 1, holds);
    }
  }

  ghost predicate DoneAt(s: seq<Snapshot>, w: World, refreshStale: bool, freshness: nat, t: Target, k: nat) {
    Done(After(s, w, freshness, k), w.clock(k), refreshStale, freshness, t)
  }

  /** The loop has not stopped in any of the first rounds. */
  ghost predicate Unfinished(s: seq<Snapshot>, w: World, refreshStale: bool, freshness: nat, t: Target, rounds: nat) {
    forall k: nat :: k < rounds ==> !DoneAt(s, w, refreshStale, freshness, t, k)
  }

  /** The evaluation, watched for `limit` rounds: it stops at the first round that finds the target met or
      nothing stale, with the metrics of the accounts at that moment. When as many rounds as there are
      untried accounts fit in the window, it stops by then. */
  method EvaluateAccountPool(initial: seq<Snapshot>, refreshStale: bool, freshness: nat, target: Target, w: World, limit: nat)
    returns (m: Metrics, accounts: seq<Snapshot>, rounds: nat, ended: bool)
    ensures rounds <= limit && accounts == After(initial, w, freshness, rounds)
    ensures Measures(m, accounts, w.clock(rounds), freshness)
    ensures m.currentAvailable + m.unconfirmedAvailable == m.estimatedAvailable && m.currentQuota <= m.estimatedQuota
    ensures Unfinished(initial, w, refreshStale, freshness, target, rounds)
    ensures ended <==> DoneAt(initial, w, refreshStale, freshness, target, rounds)
    ensures ended <==> Stops(m, accounts, w.clock(rounds), refreshStale, freshness, target)
    ensures !ended ==> rounds == limit
    ensures var n := UntriedCount(initial, w.clock(0), w.clock(0)); InWindow(w, freshness, n) && n <= limit ==> ended && rounds <= n
  {
    accounts, rounds, ended := initial, 0, false;
    while true
      invariant rounds <= limit && accounts == After(initial, w, freshness, rounds)
      invariant Unfinished(initial, w, refreshStale, freshness, target, rounds)
      decreases limit - rounds
    {
      m, ended := Look(accounts, w.clock(rounds), refreshStale, freshness, target);
      if ended || rounds == limit {
        EndsInWindow(initial, refreshStale, freshness, target, w, rounds);
        return;
      }
      accounts := CheckAll(accounts, Batch(accounts, w.clock(rounds), freshness), w, rounds);
      rounds := rounds + 1;
    }
  }

  /** One look at the accounts: their metrics, and whether the loop stops. */
  method Look(accounts: seq<Snapshot>, now: int, refreshStale: bool, freshness: nat, target: Target) returns (m: Metrics, ended: bool)
    ensures Measures(m, accounts, now, freshness)
    ensures m.currentAvailable + m.unconfirmedAvailable == m.estimatedAvailable && m.currentQuota <= m.estimatedQuota
    ensures ended <==> Done(accounts, now, refreshStale, freshness, target)
    ensures ended <==> Stops(m, accounts, now, refreshStale, freshness, target)
  {
    m := ComputeMetrics(accounts, now, freshness);
    ended := !refreshStale || TargetReached(m, target) || StaleAccounts(accounts, now, freshness) == [];
    NothingDue(accounts, now, freshness);
  }

  /** Rounds inside the window each try an account that was not tried before. */
  lemma {:induction false} UntriedLeft(s: seq<Snapshot>, w: World, refreshStale: bool, freshness: nat, t: Target, n: nat, k: nat)
    requires InWindow(w, freshness, n) && k <= n && Unfinished(s, w, refreshStale, freshness, t, k)
    ensures k + UntriedCount(After(s, w, freshness, k), w.clock(0), w.clock(k)) <= UntriedCount(s, w.clock(0), w.clock(0))
  {
    if k > 0 {
      var j: nat := k - 1;
      UntriedLeft(s, w, refreshStale, freshness, t, n, j);
      assert !DoneAt(s, w, refreshStale, freshness, t, j) && RoundFits(w, freshness, j);
      RoundTries(After(s, w, freshness, j), w, j, freshness);
    }
  }

  lemma RoundTries(s: seq<Snapshot>, w: World, k: nat, freshness: nat)
    requires RoundFits(w, freshness, k) && StaleAccounts(s, w.clock(k), freshness) != []
    ensures UntriedCount(CheckAll(s, Batch(s, w.clock(k), freshness), w, k), w.clock(0), w.clock(k + 1)) <
            UntriedCount(s, w.clock(0), w.clock(k))
  {
    BatchIsStale(s, w.clock(k), freshness);
    RoundShrinksUntried(s, Batch(s, w.clock(k), freshness), w, k, w.clock(0), w.clock(k), w.clock(k + 1));
  }

  lemma EndsInWindow(s: seq<Snapshot>, refreshStale: bool, freshness: nat, target: Target, w: World, rounds: nat)
    requires Unfinished(s, w, refreshStale, freshness, target, rounds)
    ensures var n := UntriedCount(s, w.clock(0), w.clock(0));
            InWindow(w, freshness, n) ==>
              rounds <= n && (!DoneAt(s, w, refreshStale, freshness, target, rounds) ==> rounds < n)
  {
    var n := UntriedCount(s, w.clock(0), w.clock(0));
    if InWindow(w, freshness, n) && rounds >= n {
      UnfinishedBefore(s, w, refreshStale, freshness, target, rounds, n);
      AllTriedIsDone(s, w, refreshStale, freshness, target, n);
    }
  }

  lemma UnfinishedBefore(s: seq<Snapshot>, w: World, refreshStale: bool, freshness: nat, t: Target, rounds: nat, n: nat)
    requires Unfinished(s, w, refreshStale, freshness, t, rounds) && n <= rounds
    ensures Unfinished(s, w, refreshStale, freshness, t, n)
    ensures n < rounds ==> !DoneAt(s, w, refreshStale, freshness, t, n)
  {
  }

  /** After as many rounds as there were untried accounts, nothing is stale. */
  lemma AllTriedIsDone(s: seq<Snapshot>, w: World, refreshStale: bool, freshness: nat, target: Target, n: nat)
    requires n == UntriedCount(s, w.clock(0), w.clock(0)) && InWindow(w, freshness, n)
    requires Unfinished(s, w, refreshStale, freshness, target, n)
    ensures DoneAt(s, w, refreshStale, freshness, target, n)
  {
    UntriedLeft(s, w, refreshStale, freshness, target, n, n);
    ClockInWindow(w, freshness, n);
    NoneUntriedNoneStale(After(s, w, freshness, n), w.clock(0), w.clock(n), freshness);
  }

  lemma NoneUntriedNoneStale(s: seq<Snapshot>, start: int, now: int, freshness: nat)
    requires UntriedCount(s, start, now) == 0 && start <= now <= start + freshness
    ensures StaleAccounts(s, now, freshness) == []
  {
    forall a | a in s ensures !IsStale(a, now, freshness) {
      NoneUntried(s, start, now, a);
    }
    if StaleAccounts(s, now, freshness) != [] {
      BatchIsStale(s, now, freshness);
    }
  }

  lemma ClockInWindow(w: World, freshness: nat, n: nat)
    requires InWindow(w, freshness, n)
    ensures w.clock(0) <= w.clock(n) <= w.clock(0) + freshness
  {
    if n > 0 {
      assert RoundFits(w, freshness, n - 1) && n - 1 + 1 == n;
    }
  }

  lemma {:induction false} NoneUntried(s: seq<Snapshot>, start: int, now: int, a: Snapshot)
    requires UntriedCount(s, start, now) == 0 && a in s
    ensures !Untried(a, start, now)
  {
    if a != s[|s| - 1] {
      assert s == s[..|s| - 1] + [s[|s| - 1]];
      NoneUntried(s[..|s| - 1], start, now, a);
    }
  }

  // ---- A pool in which every check fails ----

  ghost function StaleTokens(s: seq<Snapshot>, now: int, freshness: nat): set<Token> {
    set a | a in s && IsStale(a, now, freshness) :: a.token
  }

  /** The accounts tried after the moment `since`. */
  ghost function TriedAfter(s: seq<Snapshot>, since: int): set<Token> {
    set a | a in s && a.attemptedAt.Some? && a.attemptedAt.value > since :: a.token
  }

  /** No two accounts have the same token. */
  ghost predicate DistinctTokens(s: seq<Snapshot>) {
    s == [] || (DistinctTokens(s[..|s| - 1]) && NotIn(s[|s| - 1].token, s[..|s| - 1]))
  }

  ghost predicate NotIn(t: Token, s: seq<Snapshot>) {
    forall b :: b in s ==> b.token != t
  }

  lemma {:induction false} InsertDistinct(s: seq<Snapshot>, a: Snapshot)
    requires DistinctTokens(s) && NotIn(a.token, s)
    ensures DistinctTokens(InsertByAge(s, a))
  {
    if s == [] || NotLater(s[|s| - 1], a) {
      assert (s + [a])[..|s|] == s;
    } else {
      var init, last := s[..|s| - 1], s[|s| - 1];
      InsertDistinct(init, a);
      assert (InsertByAge(init, a) + [last])[..|s|] == InsertByAge(init, a);
      assert last in s;
    }
  }

  lemma {:induction false} StaleDistinct(s: seq<Snapshot>, now: int, freshness: nat)
    requires DistinctTokens(s)
    ensures DistinctTokens(StaleAccounts(s, now, freshness))
  {
    if s != [] {
      StaleDistinct(s[..|s| - 1], now, freshness);
      if IsStale(s[|s| - 1], now, freshness) {
        InsertDistinct(StaleAccounts(s[..|s| - 1], now, freshness), s[|s| - 1]);
      }
    }
  }

  lemma {:induction false} PrefixDistinct(s: seq<Snapshot>, n: nat)
    requires DistinctTokens(s) && n <= |s|
    ensures DistinctTokens(s[..n])
  {
    if n < |s| {
      PrefixDistinct(s[..|s| - 1], n);
      assert s[..|s| - 1][..n] == s[..n];
    } else {
      assert s[..n] == s;
    }
  }

  lemma TokenOf(s: seq<Snapshot>, t: Token)
    ensures t in Elements(Tokens(s)) <==> exists a :: a in s && a.token == t
  {
    if t in Tokens(s) {
      var i :| 0 <= i < |s| && Tokens(s)[i] == t;
      assert s[i] in s;
    }
    if a :| a in s && a.token == t {
      var i :| 0 <= i < |s| && s[i] == a;
      assert Tokens(s)[i] == t;
    }
  }

  lemma {:induction false} DistinctSize(s: seq<Snapshot>)
    ensures |Elements(Tokens(s))| <= |s|
    ensures DistinctTokens(s) ==> |Elements(Tokens(s))| == |s|
  {
    if s != [] {
      var init, last := s[..|s| - 1], s[|s| - 1];
      DistinctSize(init);
      TokensAppend(init, last);
      assert s == init + [last];
    }
  }

  lemma TokensAppend(s: seq<Snapshot>, a: Snapshot)
    ensures Elements(Tokens(s + [a])) == Elements(Tokens(s)) + {a.token}
    ensures NotIn(a.token, s) ==> a.token !in Elements(Tokens(s))
  {
    assert Tokens(s + [a]) == Tokens(s) + [a.token];
    TokenOf(s, a.token);
  }

  /** A batch has at most ten tokens, all of stale accounts, and it has ten unless it has all of them. */
  lemma BatchSize(s: seq<Snapshot>, now: int, freshness: nat)
    requires DistinctTokens(s)
    ensures Batch(s, now, freshness) <= StaleTokens(s, now, freshness)
    ensures |Batch(s, now, freshness)| <= BATCH
    ensures |Batch(s, now, freshness)| == BATCH || Batch(s, now, freshness) == StaleTokens(s, now, freshness)
  {
    StaleDistinct(s, now, freshness);
    FirstTokens(StaleAccounts(s, now, freshness), StaleTokens(s, now, freshness));
  }

  lemma FirstTokens(stale: seq<Snapshot>, all: set<Token>)
    requires DistinctTokens(stale) && all == set a | a in stale :: a.token
    ensures var first := Elements(Tokens(stale[..Min(BATCH, |stale|)]));
            first <= all && |first| <= BATCH && (|first| == BATCH || first == all)
  {
    var first := stale[..Min(BATCH, |stale|)];
    PrefixDistinct(stale, |first|);
    DistinctSize(first);
    forall t | t in Elements(Tokens(first)) ensures t in all {
      TokenOf(first, t);
    }
    if |stale| <= BATCH {
      assert first == stale;
      forall t | t in all ensures t in Elements(Tokens(first)) {
        TokenOf(first, t);
      }
    }
  }

  /** Every check of the round fails and records its attempt at the given moment. */
  ghost predicate AllFail(w: World, k: nat, at: int) {
    forall t :: w.outcome(k, t) == Errored(at, t)
  }

  function Attempted(a: Snapshot, batch: set<Token>, at: int): Snapshot {
    if a.token in batch then a.(attemptedAt := Some(at)) else a
  }

  lemma {:induction false} FailedRound(s: seq<Snapshot>, batch: set<Token>, w: World, k: nat, at: int)
    requires AllFail(w, k, at)
    ensures |CheckAll(s, batch, w, k)| == |s|
    ensures forall i :: 0 <= i < |s| ==> CheckAll(s, batch, w, k)[i] == Attempted(s[i], batch, at)
  {
    if s != [] {
      FailedRound(s[..|s| - 1], batch, w, k, at);
    }
  }

  /** A pool that is stale altogether, with no times in the future. */
  ghost predicate AllStale(s: seq<Snapshot>, now: int, freshness: nat) {
    && (forall a :: a in s ==> IsStale(a, now, freshness))
    && (forall a :: a in s ==> (a.checkedAt.Some? ==> a.checkedAt.value <= now) && (a.attemptedAt.Some? ==> a.attemptedAt.value <= now))
  }

  function Ticks(d: nat, k: nat): nat {
    if k == 0 then 0 else Ticks(d, k - 1) + d
  }

  lemma {:induction false} TicksTimes(d: nat, k: nat)
    ensures Ticks(d, k) == k * d
  {
    if k > 0 {
      TicksTimes(d, k - 1);
    }
  }

  lemma {:induction false} TicksAdd(d: nat, j: nat, k: nat)
    ensures Ticks(d, j + k) == Ticks(d, j) + Ticks(d, k)
  {
    if k > 0 {
      TicksAdd(d, j, k - 1);
    }
  }

  /** Rounds take `d` seconds each, and every check fails `e` seconds into its round. */
  ghost predicate FailsEvery(w: World, d: nat, e: nat) {
    e <= d && forall k: nat :: FailsAt(w, d, e, k)
  }

  ghost predicate FailsAt(w: World, d: nat, e: nat, k: nat) {
    w.clock(k) == w.clock(0) + Ticks(d, k) && AllFail(w, k, w.clock(k) + e)
  }

  /** The same account with another time of its last attempt. */
  predicate SameBut(a: Snapshot, b: Snapshot) {
    b.token == a.token && b.normal == a.normal && b.checkedAt == a.checkedAt
  }

  ghost predicate SameButAttempts(s: seq<Snapshot>, t: seq<Snapshot>) {
    |t| == |s| && forall i :: 0 <= i < |s| ==> SameBut(s[i], t[i])
  }

  lemma FailedRoundIsSame(s: seq<Snapshot>, t: seq<Snapshot>, batch: set<Token>, w: World, k: nat, at: int)
    requires SameButAttempts(s, t) && AllFail(w, k, at)
    ensures SameButAttempts(s, CheckAll(t, batch, w, k))
  {
    FailedRound(t, batch, w, k, at);
  }

  lemma FailedStep(s: seq<Snapshot>, t: seq<Snapshot>, w: World, freshness: nat, d: nat, e: nat, k: nat)
    requires FailsEvery(w, d, e) && SameButAttempts(s, t)
    ensures SameButAttempts(s, NextRound(t, w, freshness, k))
  {
    assert FailsAt(w, d, e, k);
    FailedRoundIsSame(s, t, Batch(t, w.clock(k), freshness), w, k, w.clock(k) + e);
  }

  lemma {:induction false} SameIsDistinct(s: seq<Snapshot>, t: seq<Snapshot>)
    requires DistinctTokens(s) && SameButAttempts(s, t)
    ensures DistinctTokens(t)
  {
    if s != [] {
      var init := s[..|s| - 1];
      SameIsDistinct(init, t[..|t| - 1]);
      forall b | b in t[..|t| - 1] ensures b.token != t[|t| - 1].token {
        var i :| 0 <= i < |t| - 1 && t[i] == b;
        assert SameBut(s[i], t[i]) && init[i] in init && SameBut(s[|s| - 1], t[|t| - 1]);
      }
    }
  }

  /** An account of the pool is stale after some rounds unless it was tried recently. */
  lemma StaleAgainIff(s: seq<Snapshot>, t: seq<Snapshot>, i: nat, start: int, now: int, freshness: nat)
    requires AllStale(s, start, freshness) && SameButAttempts(s, t) && i < |s| && start <= now
    ensures IsStale(t[i], now, freshness) <==> !Within(t[i].attemptedAt, now, freshness)
  {
    assert s[i] in s;
    assert SameBut(s[i], t[i]);
  }

  /** A pool in which everything is stale and every check fails. */
  ghost predicate Failing(s: seq<Snapshot>, w: World, freshness: nat, d: nat, e: nat) {
    DistinctTokens(s) && AllStale(s, w.clock(0), freshness) && FailsEvery(w, d, e)
  }

  /** The number of rounds before `k` that recorded their attempts after the moment `since`. */
  ghost function RoundsAfter(w: World, e: nat, k: nat, since: int): nat {
    if k == 0 then 0
    else RoundsAfter(w, e, k - 1, since) + if w.clock(k - 1) + e > since then 1 else 0
  }

  /** Each round tries at most ten accounts. */
  ghost predicate FewTried(s: seq<Snapshot>, t: seq<Snapshot>, w: World, e: nat, k: nat, since: int) {
    SameButAttempts(s, t) && |TriedAfter(t, since)| <= BATCH * RoundsAfter(w, e, k, since)
  }

  ghost function FewTriedTest(s: seq<Snapshot>, w: World, e: nat, since: int): (nat, seq<Snapshot>) -> bool {
    (k: nat, t: seq<Snapshot>) => FewTried(s, t, w, e, k, since)
  }

  lemma FewAreTried(s: seq<Snapshot>, w: World, freshness: nat, d: nat, e: nat, n: nat, since: int)
    requires Failing(s, w, freshness, d, e) && since >= w.clock(0) - freshness - 1
    ensures FewTried(s, After(s, w, freshness, n), w, e, n, since)
  {
    NobodyTried(s, w.clock(0), freshness, since);
    forall k: nat, t | k < n && FewTriedTest(s, w, e, since)(k, t)
      ensures FewTriedTest(s, w, e, since)(k + 1, NextRound(t, w, freshness, k))
    {
      TriedStep(s, t, w, freshness, d, e, k, since);
    }
    AfterInduction(s, w, freshness, n, FewTriedTest(s, w, e, since));
  }

  lemma TriedStep(s: seq<Snapshot>, t: seq<Snapshot>, w: World, freshness: nat, d: nat, e: nat, k: nat, since: int)
    requires Failing(s, w, freshness, d, e) && FewTried(s, t, w, e, k, since)
    ensures FewTried(s, NextRound(t, w, freshness, k), w, e, k + 1, since)
  {
    assert FailsAt(w, d, e, k);
    FailedStep(s, t, w, freshness, d, e, k);
    RoundTriesFew(s, t, w.clock(k), freshness, w, k, w.clock(k) + e, since);
  }

  lemma NobodyTried(s: seq<Snapshot>, now: int, freshness: nat, since: int)
    requires AllStale(s, now, freshness) && since >= now - freshness - 1
    ensures TriedAfter(s, since) == {}
  {
    forall a | a in s ensures a.attemptedAt.Some? ==> a.attemptedAt.value <= since {
      assert IsStale(a, now, freshness);
    }
  }

  lemma RoundTriesFew(s: seq<Snapshot>, t: seq<Snapshot>, now: int, freshness: nat, w: World, k: nat, at: int, since: int)
    requires DistinctTokens(s) && SameButAttempts(s, t) && AllFail(w, k, at)
    ensures |TriedAfter(CheckAll(t, Batch(t, now, freshness), w, k), since)| <=
            |TriedAfter(t, since)| + if at > since then BATCH else 0
  {
    SameIsDistinct(s, t);
    BatchSize(t, now, freshness);
    TriedGrows(t, Batch(t, now, freshness), w, k, at, since);
  }

  lemma TriedGrows(s: seq<Snapshot>, batch: set<Token>, w: World, k: nat, at: int, since: int)
    requires AllFail(w, k, at)
    ensures |TriedAfter(CheckAll(s, batch, w, k), since)| <= |TriedAfter(s, since)| + if at > since then |batch| else 0
  {
    var t := CheckAll(s, batch, w, k);
    FailedRound(s, batch, w, k, at);
    var bound := TriedAfter(s, since) + if at > since then batch else {};
    forall x | x in TriedAfter(t, since) ensures x in bound {
      var a :| a in t && a.attemptedAt.Some? && a.attemptedAt.value > since && a.token == x;
      var i :| 0 <= i < |t| && t[i] == a;
      assert s[i] in s;
    }
    SubsetSize(TriedAfter(t, since), bound);
  }

  lemma {:induction false} LastRoundsOnly(w: World, e: nat, k: nat, since: int, first: nat)
    requires forall j: nat :: j < first && j < k ==> w.clock(j) + e <= since
    ensures RoundsAfter(w, e, k, since) <= if k <= first then 0 else k - first
  {
    if k > 0 {
      LastRoundsOnly(w, e, k - 1, since, first);
    }
  }

  /** How many batches the accounts make. */
  function Batches(n: nat): nat {
    (n + BATCH - 1) / BATCH
  }

  /** The attempts that still count before round `k` are those of fewer rounds than there are batches. */
  lemma RecentRounds(w: World, freshness: nat, d: nat, e: nat, r: nat, k: nat)
    requires FailsEvery(w, d, e) && Ticks(d, r) - e > freshness
    ensures RoundsAfter(w, e, k, w.clock(k) - freshness - 1) <= r - 1
  {
    var since, first := w.clock(k) - freshness - 1, if k < r then 0 else k - r + 1;
    assert FailsAt(w, d, e, k);
    forall j: nat | j < first && j < k ensures w.clock(j) + e <= since {
      assert FailsAt(w, d, e, j);
      TicksAdd(d, j, k - j);
      TicksAdd(d, r, k - j - r);
    }
    LastRoundsOnly(w, e, k, since, first);
  }

  /** If the last batch is tried only when the first one may be tried again, some account is stale before
      every round. */
  lemma SlowFailuresStayStale(s: seq<Snapshot>, w: World, freshness: nat, d: nat, e: nat, k: nat)
    requires Failing(s, w, freshness, d, e) && Ticks(d, Batches(|s|)) - e > freshness
    ensures StaleAccounts(After(s, w, freshness, k), w.clock(k), freshness) != []
  {
    var r, start, now := Batches(|s|), w.clock(0), w.clock(k);
    assert FailsAt(w, d, e, k);
    RecentRounds(w, freshness, d, e, r, k);
    FewAreTried(s, w, freshness, d, e, k, now - freshness - 1);
    SomebodyIsStale(s, After(s, w, freshness, k), start, now, freshness);
  }

  lemma SomebodyIsStale(s: seq<Snapshot>, t: seq<Snapshot>, start: int, now: int, freshness: nat)
    requires DistinctTokens(s) && AllStale(s, start, freshness) && SameButAttempts(s, t) && start <= now
    requires |TriedAfter(t, now - freshness - 1)| < |s|
    ensures StaleAccounts(t, now, freshness) != []
  {
    var tried := TriedAfter(t, now - freshness - 1);
    SameIsDistinct(s, t);
    DistinctSize(t);
    var i := NotAmong(t, tried);
    StaleAgainIff(s, t, i, start, now, freshness);
    assert t[i] in t;
    assert t[i] in StaleAccounts(t, now, freshness);
  }

  lemma NotAmong(t: seq<Snapshot>, tried: set<Token>) returns (i: nat)
    requires |tried| < |Elements(Tokens(t))|
    ensures i < |t| && t[i].token !in tried
  {
    if Elements(Tokens(t)) <= tried {
      SubsetSize(Elements(Tokens(t)), tried);
      assert false;
    }
    var x :| x in Elements(Tokens(t)) && x !in tried;
    TokenOf(t, x);
    i :| 0 <= i < |t| && t[i].token == x;
  }

  /** Inside the window, an account that is not stale is one that a failed round has tried. */
  ghost predicate TriedOnly(t: seq<Snapshot>, since: int, now: int, freshness: nat) {
    forall a :: a in t ==> TriedSince(a, since, now, freshness)
  }

  predicate TriedSince(a: Snapshot, since: int, now: int, freshness: nat) {
    && (a.attemptedAt.Some? ==> a.attemptedAt.value <= now)
    && (!IsStale(a, now, freshness) ==> a.attemptedAt.Some? && since <= a.attemptedAt.value)
  }

  /** How far `k` failed rounds inside the window get with the accounts `s`. */
  ghost predicate RunsOut(s: seq<Snapshot>, t: seq<Snapshot>, since: int, now: int, freshness: nat, k: nat) {
    && SameButAttempts(s, t) && TriedOnly(t, since, now, freshness)
    && |StaleTokens(t, now, freshness)| <= Max(0, |s| - BATCH * k)
  }

  ghost function RunsOutTest(s: seq<Snapshot>, w: World, freshness: nat, e: nat): (nat, seq<Snapshot>) -> bool {
    (k: nat, t: seq<Snapshot>) => RunsOut(s, t, w.clock(0) + e, w.clock(k), freshness, k)
  }

  /** If every batch is tried before the first one may be tried again, nothing is stale in the end. */
  lemma QuickFailuresRunOut(s: seq<Snapshot>, w: World, freshness: nat, d: nat, e: nat, n: nat)
    requires Failing(s, w, freshness, d, e) && Ticks(d, n) - e <= freshness
    ensures RunsOut(s, After(s, w, freshness, n), w.clock(0) + e, w.clock(n), freshness, n)
  {
    StaleIsFew(s, w.clock(0), freshness);
    forall k: nat, t | k < n && RunsOutTest(s, w, freshness, e)(k, t)
      ensures RunsOutTest(s, w, freshness, e)(k + 1, NextRound(t, w, freshness, k))
    {
      TicksAdd(d, k + 1, n - k - 1);
      QuickStep(s, t, w, freshness, d, e, k);
    }
    AfterInduction(s, w, freshness, n, RunsOutTest(s, w, freshness, e));
  }

  lemma QuickStep(s: seq<Snapshot>, t: seq<Snapshot>, w: World, freshness: nat, d: nat, e: nat, k: nat)
    requires Failing(s, w, freshness, d, e)
    requires Ticks(d, k + 1) - e <= freshness && RunsOut(s, t, w.clock(0) + e, w.clock(k), freshness, k)
    ensures RunsOut(s, NextRound(t, w, freshness, k), w.clock(0) + e, w.clock(k + 1), freshness, k + 1)
  {
    assert FailsAt(w, d, e, k) && FailsAt(w, d, e, k + 1);
    FailedStep(s, t, w, freshness, d, e, k);
    RoundInWindow(s, t, w.clock(0), w.clock(k), w.clock(k + 1), freshness, e, w, k);
  }

  lemma StaleIsFew(s: seq<Snapshot>, now: int, freshness: nat)
    ensures |StaleTokens(s, now, freshness)| <= |s|
  {
    forall x | x in StaleTokens(s, now, freshness) ensures x in Elements(Tokens(s)) {
      TokenOf(s, x);
    }
    SubsetSize(StaleTokens(s, now, freshness), Elements(Tokens(s)));
    DistinctSize(s);
  }

  /** A failed round inside the window takes its batch out of the stale accounts and adds none. */
  lemma RoundInWindow(s: seq<Snapshot>, t: seq<Snapshot>, start: int, now: int, later: int, freshness: nat, e: nat, w: World, k: nat)
    requires DistinctTokens(s) && AllStale(s, start, freshness) && SameButAttempts(s, t) && AllFail(w, k, now + e)
    requires start <= now && now + e <= later && later - (start + e) <= freshness
    requires TriedOnly(t, start + e, now, freshness)
    ensures var u := CheckAll(t, Batch(t, now, freshness), w, k);
            && |StaleTokens(u, later, freshness)| <= Max(0, |StaleTokens(t, now, freshness)| - BATCH)
            && TriedOnly(u, start + e, later, freshness)
  {
    var batch := Batch(t, now, freshness);
    var u := CheckAll(t, batch, w, k);
    SameIsDistinct(s, t);
    BatchSize(t, now, freshness);
    FailedBatch(s, t, u, batch, start, now, later, freshness, e, w, k);
    LessBatch(StaleTokens(u, later, freshness), StaleTokens(t, now, freshness), batch);
  }

  lemma FailedBatch(s: seq<Snapshot>, t: seq<Snapshot>, u: seq<Snapshot>, batch: set<Token>, start: int, now: int,
          later: int, freshness: nat, e: nat, w: World, k: nat)
    requires AllStale(s, start, freshness) && SameButAttempts(s, t) && AllFail(w, k, now + e) && u == CheckAll(t, batch, w, k)
    requires start <= now && now + e <= later && later - (start + e) <= freshness
    requires TriedOnly(t, start + e, now, freshness)
    ensures StaleTokens(u, later, freshness) <= StaleTokens(t, now, freshness) - batch
    ensures TriedOnly(u, start + e, later, freshness)
  {
    FailedRound(t, batch, w, k, now + e);
    FailedRoundIsSame(s, t, batch, w, k, now + e);
    BatchLeaves(s, t, u, batch, start, now, later, freshness, e);
  }

  lemma LessBatch(after: set<Token>, before: set<Token>, batch: set<Token>)
    requires after <= before - batch && batch <= before && (|batch| == BATCH || batch == before)
    ensures |after| <= Max(0, |before| - BATCH)
  {
    SubsetSize(after, before - batch);
  }

  lemma BatchLeaves(s: seq<Snapshot>, t: seq<Snapshot>, u: seq<Snapshot>, batch: set<Token>, start: int, now: int,
          later: int, freshness: nat, e: nat)
    requires AllStale(s, start, freshness) && SameButAttempts(s, t) && SameButAttempts(s, u)
    requires start <= now && now + e <= later && later - (start + e) <= freshness
    requires forall i :: 0 <= i < |t| ==> u[i] == Attempted(t[i], batch, now + e)
    requires TriedOnly(t, start + e, now, freshness)
    ensures StaleTokens(u, later, freshness) <= StaleTokens(t, now, freshness) - batch
    ensures TriedOnly(u, start + e, later, freshness)
  {
    forall i | 0 <= i < |u|
      ensures IsStale(u[i], later, freshness) ==> t[i] in t && IsStale(t[i], now, freshness) && t[i].token !in batch && u[i].token == t[i].token
      ensures TriedSince(u[i], start + e, later, freshness)
    {
      assert TriedSince(t[i], start + e, now, freshness);
      assert t[i] in t && u[i] == Attempted(t[i], batch, now + e);
      StaleAgainIff(s, t, i, start, now, freshness);
      StaleAgainIff(s, u, i, start, later, freshness);
      assert s[i] in s && SameBut(s[i], t[i]);
    }
  }

  /** When every check fails, and there is no target to reach, the evaluation of a stale pool ends if and
      only if the batches are all tried before the accounts of the first one are stale again. */
  lemma FailingPoolEndsIff(s: seq<Snapshot>, w: World, freshness: nat, d: nat, e: nat)
    requires Failing(s, w, freshness, d, e)
    ensures (exists k: nat :: DoneAt(s, w, true, freshness, Target(None, None), k)) <==> Batches(|s|) * d - e <= freshness
  {
    var r := Batches(|s|);
    TicksTimes(d, r);
    if Ticks(d, r) - e <= freshness {
      QuickFailuresRunOut(s, w, freshness, d, e, r);
      NoneStaleLeft(After(s, w, freshness, r), w.clock(r), freshness);
      assert DoneAt(s, w, true, freshness, Target(None, None), r);
    } else {
      forall k: nat ensures !DoneAt(s, w, true, freshness, Target(None, None), k) {
        SlowFailuresStayStale(s, w, freshness, d, e, k);
      }
    }
  }

  lemma NoneStaleLeft(s: seq<Snapshot>, now: int, freshness: nat)
    requires |StaleTokens(s, now, freshness)| == 0
    ensures StaleAccounts(s, now, freshness) == []
  {
    forall a | a in s ensures !IsStale(a, now, freshness) {
      assert IsStale(a, now, freshness) ==> a.token in StaleTokens(s, now, freshness);
    }
    if StaleAccounts(s, now, freshness) != [] {
      BatchIsStale(s, now, freshness);
    }
  }
}
