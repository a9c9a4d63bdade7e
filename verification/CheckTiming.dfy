/** When account checks run: in the order in which they were asked for, and at most one unforced request in
    the deduplication window, over every run of the lock regions. */
module CheckTiming {
  import opened Sequences
  import opened AliasGraph
  import opened AccountPool
  import opened SlotConservation
  import opened CheckQueue

  /** The token under which the queue knows the entry `u` after the event. */
  function Renames(p: Pool, e: Event, u: Token): Token {
    if Rotates(p, e) && ResolveIn(p, e.name) == u then RotatedTo(p, e) else u
  }

  ghost function KnownAs(s: System, es: seq<Event>, t: Token): Token {
    if es == [] then t
    else
      var init := es[..|es| - 1];
      Renames(Run(s, init).pool, es[|es| - 1], KnownAs(s, init, t))
  }

  /** The event starts some check. */
  predicate StartsAny(p: Pool, e: Event) {
    e.Starting? && p.pending != [] && |p.active| < MAX_CHECKS
  }

  lemma OthersKeepTimes(p: Pool, e: Event)
    requires !e.Starting? && !e.Finishing? && !e.Scheduling? && !Rotates(p, e)
    ensures StepPool(p, e).pending == p.pending && StepPool(p, e).startedAt == p.startedAt
    ensures StepPool(p, e).active == p.active
  {
    if e.Settling? {
      SettleKeepsTimes(p, e.name, e.how);
    }
  }

  lemma SettleKeepsTimes(p: Pool, name: Token, how: Settlement)
    ensures Settle(p, name, how).pending == p.pending && Settle(p, name, how).startedAt == p.startedAt
    ensures Settle(p, name, how).active == p.active
  {
  }

  lemma RotationOnTimes(p: Pool, e: Event)
    requires Rotates(p, e)
    ensures var t, n, q := ResolveIn(p, e.name), RotatedTo(p, e), StepPool(p, e);
            && q.startedAt == if t in p.startedAt then (p.startedAt - {t})[n := p.startedAt[t]] else p.startedAt
  {
  }

  // ---- First come, first served ----

  /** The token is in the list, with at most `k` others before it. */
  ghost predicate Within(s: seq<Token>, t: Token, k: int) {
    exists i :: 0 <= i < |s| && i <= k && s[i] == t
  }

  lemma {:induction false} DistinctIsShorter(s: seq<Token>)
    ensures |Distinct(s)| <= |s|
  {
    if s != [] {
      DistinctIsShorter(s[..|s| - 1]);
    }
  }

  lemma {:induction false} DistinctWithin(s: seq<Token>, i: nat)
    requires i < |s|
    ensures Within(Distinct(s), s[i], i)
  {
    var rest := Distinct(s[..|s| - 1]);
    DistinctIsShorter(s[..|s| - 1]);
    if i < |s| - 1 {
      DistinctWithin(s[..|s| - 1], i);
      var j :| 0 <= j < |rest| && j <= i && rest[j] == s[i];
      assert Distinct(s)[j] == s[i];
    } else if s[i] in rest {
      var j :| 0 <= j < |rest| && rest[j] == s[i];
      assert Distinct(s)[j] == s[i];
    } else {
      assert Distinct(s)[|rest|] == s[i];
    }
  }

  lemma RenamedWithin(s: seq<Token>, a: Token, b: Token, t: Token, k: int)
    requires Within(s, t, k)
    ensures Within(RenamedSeq(s, a, b), if t == a then b else t, k)
  {
    var i :| 0 <= i < |s| && i <= k && s[i] == t;
    DistinctWithin(Replaced(s, a, b), i);
  }

  lemma WithinMore(s: seq<Token>, more: seq<Token>, t: Token, k: int)
    requires Within(s, t, k)
    ensures Within(s + more, t, k)
  {
    var i :| 0 <= i < |s| && i <= k && s[i] == t;
    assert (s + more)[i] == t;
  }

  lemma RotationKeepsTurn(p: Pool, e: Event, u: Token, k: int)
    requires Rotates(p, e) && Within(p.pending, u, k)
    ensures Within(StepPool(p, e).pending, Renames(p, e, u), k)
  {
    RotationOnQueue(p, e);
    RenamedWithin(p.pending, ResolveIn(p, e.name), RotatedTo(p, e), u, k);
    assert ResolveIn(p, e.name) !in p.pending ==> u != ResolveIn(p, e.name);
  }

  lemma AppendKeepsTurn(p: Pool, e: Event, u: Token, k: int)
    requires (e.Scheduling? || e.Finishing?) && Within(p.pending, u, k)
    ensures Within(StepPool(p, e).pending, u, k)
  {
    if StepPool(p, e).pending != p.pending {
      var t := ResolveIn(p, if e.Scheduling? then e.name else e.token);
      assert StepPool(p, e).pending == p.pending + [t];
      WithinMore(p.pending, [t], u, k);
    }
  }

  lemma StartTakesTurn(p: Pool, e: Event, u: Token, k: int)
    requires e.Starting? && Within(p.pending, u, k) && !StartsCheck(p, e, u)
    ensures StartsAny(p, e) ==> k >= 1 && Within(StepPool(p, e).pending, u, k - 1)
    ensures !StartsAny(p, e) ==> Within(StepPool(p, e).pending, u, k)
  {
    if StartsAny(p, e) {
      var i :| 0 <= i < |p.pending| && i <= k && p.pending[i] == u;
      assert p.pending[1..][i - 1] == u;
    }
  }

  lemma TurnStep(p: Pool, e: Event, u: Token, k: int)
    requires Within(p.pending, u, k) && !StartsCheck(p, e, u)
    ensures StartsAny(p, e) ==> k >= 1 && Within(StepPool(p, e).pending, Renames(p, e, u), k - 1)
    ensures !StartsAny(p, e) ==> Within(StepPool(p, e).pending, Renames(p, e, u), k)
  {
    if e.Starting? {
      StartTakesTurn(p, e, u, k);
    } else if Rotates(p, e) {
      RotationKeepsTurn(p, e, u, k);
    } else if e.Scheduling? || e.Finishing? {
      AppendKeepsTurn(p, e, u, k);
    } else {
      OthersKeepTimes(p, e);
    }
  }

  /** How many checks the run starts. */
  ghost function StartCount(s: System, es: seq<Event>): nat {
    if es == [] then 0
    else
      var init := es[..|es| - 1];
      StartCount(s, init) + if StartsAny(Run(s, init).pool, es[|es| - 1]) then 1 else 0
  }

  /** The run does not start the check of `t`, under whatever token the queue knows it. */
  ghost predicate NotStarted(s: System, es: seq<Event>, t: Token) {
    es == [] ||
    var init := es[..|es| - 1];
    NotStarted(s, init, t) && !StartsCheck(Run(s, init).pool, es[|es| - 1], KnownAs(s, init, t))
  }

  /** Checks start in the order in which they were queued: an account with `k` others before it stays in the
      queue, under its present token, until it is started, and waits for at most `k` other checks to start. */
  lemma {:induction false} ChecksStartInTurn(s: System, es: seq<Event>, t: Token, k: int)
    requires Within(s.pool.pending, t, k) && NotStarted(s, es, t)
    ensures StartCount(s, es) <= k && Within(Run(s, es).pool.pending, KnownAs(s, es, t), k - StartCount(s, es))
  {
    if es != [] {
      var init := es[..|es| - 1];
      ChecksStartInTurn(s, init, t, k);
      TurnStep(Run(s, init).pool, es[|es| - 1], KnownAs(s, init, t), k - StartCount(s, init));
    }
  }

  // ---- The window between two checks ----

  /** The clock of the event, if it reads one, stands between the two times. */
  predicate Ticks(e: Event, from: int, to: int) {
    match e
    case Scheduling(_, _, now, _) => from <= now <= to
    case Starting(now) => from <= now <= to
    case _ => true
  }

  /** A check of the account at this very token was started at `from` or later. */
  predicate Knows(p: Pool, u: Token, from: int) {
    u in p.startedAt && p.startedAt[u] >= from
  }

  lemma KnowsStep(p: Pool, e: Event, u: Token, from: int, to: int)
    requires Knows(p, u, from) && u in p.accounts && Ticks(e, from, to) && to <= from + 30
    ensures Knows(StepPool(p, e), Renames(p, e, u), from)
  {
    if Rotates(p, e) {
      RotationOnTimes(p, e);
    } else if !e.Starting? && !e.Finishing? && !e.Scheduling? {
      OthersKeepTimes(p, e);
    }
  }

  /** The account stays in the pool, under its own token or one it was rotated to, and the clock stays between
      the two times. */
  ghost predicate Lasts(s: System, es: seq<Event>, u: Token, from: int, to: int) {
    && KnownAs(s, es, u) in Run(s, es).pool.accounts
    && (es == [] || (Lasts(s, es[..|es| - 1], u, from, to) && Ticks(es[|es| - 1], from, to)))
  }

  lemma {:induction false} KnowsInRun(s: System, es: seq<Event>, u: Token, from: int, to: int)
    requires Knows(s.pool, u, from) && Lasts(s, es, u, from, to) && to <= from + 30
    ensures Knows(Run(s, es).pool, KnownAs(s, es, u), from)
  {
    if es != [] {
      var init := es[..|es| - 1];
      KnowsInRun(s, init, u, from, to);
      KnowsStep(Run(s, init).pool, es[|es| - 1], KnownAs(s, init, u), from, to);
    }
  }

  lemma StartIsKnown(p: Pool, u: Token, now: int)
    requires StartsCheck(p, Starting(now), u)
    ensures Knows(Start(p, now), u, now)
  {
  }

  lemma KnownIsNotQueued(p: Pool, name: Token, u: Token, from: int, now: int, pick: Token)
    requires Knows(p, u, from) && ResolveIn(p, u) == u && ResolveIn(p, name) == u && now < from + 30
    ensures Schedule(p, name, false, now, pick) in {p, p.(startedAt := Remembered(p, now))}
  {
    var q := p.(startedAt := Remembered(p, now));
    assert u in q.startedAt && ResolveIn(q, u) == ResolveIn(p, u);
  }

  /** Whatever happens after a check of an account was started, an unforced request less than thirty seconds
      later, under any name that stands for the account, queues nothing and marks nothing, as long as the
      account stays in the pool; rotations of its token do not make it forgotten. */
  lemma RecentCheckIsNotRepeated(s: System, es: seq<Event>, u: Token, start: int, name: Token, now: int, pick: Token)
    requires StartsCheck(s.pool, Starting(start), u) && Lasts(Step(s, Starting(start)), es, u, start, now)
    requires now < start + 30
    requires var end := Run(Step(s, Starting(start)), es).pool; ResolveIn(end, name) == KnownAs(Step(s, Starting(start)), es, u)
    ensures var end := Run(Step(s, Starting(start)), es).pool;
            Schedule(end, name, false, now, pick) in {end, end.(startedAt := Remembered(end, now))}
  {
    var s1 := Step(s, Starting(start));
    var end := Run(s1, es).pool;
    StartIsKnown(s.pool, u, start);
    KnowsInRun(s1, es, u, start, now);
    LiveEnds(end, KnownAs(s1, es, u));
    KnownIsNotQueued(end, name, KnownAs(s1, es, u), start, now, pick);
  }

  lemma LiveEnds(p: Pool, u: Token)
    requires u in p.accounts
    ensures ResolveIn(p, u) == u
  {
    ResolveTerminal(Aliases(p), u);
  }

  // ---- What counts as recent ----

  /** A check was started for this token, or for one that was rotated to it, at this time. */
  datatype StartOf = StartOf(token: Token, time: int)

  ghost function StartsAfter(p: Pool, e: Event, before: set<StartOf>): set<StartOf> {
    if StartsAny(p, e) then before + {StartOf(p.pending[0], e.now)}
    else if Rotates(p, e) then set x | x in before :: StartOf(Renames(p, e, x.token), x.time)
    else before
  }

  /** The checks that the run started. */
  ghost function Started(s: System, es: seq<Event>): set<StartOf> {
    if es == [] then {}
    else StartsAfter(Run(s, es[..|es| - 1]).pool, es[|es| - 1], Started(s, es[..|es| - 1]))
  }

  ghost predicate OnlyStarts(startedAt: map<Token, int>, starts: set<StartOf>) {
    forall x :: x in startedAt ==> StartOf(x, startedAt[x]) in starts
  }

  lemma OnlyStartsStep(p: Pool, e: Event, starts: set<StartOf>)
    requires OnlyStarts(p.startedAt, starts)
    ensures OnlyStarts(StepPool(p, e).startedAt, StartsAfter(p, e, starts))
  {
    if Rotates(p, e) {
      RotationOnTimes(p, e);
      RotatedStarts(p, e, starts);
    } else if !e.Starting? && !e.Finishing? && !e.Scheduling? {
      OthersKeepTimes(p, e);
    }
  }

  lemma RotatedStarts(p: Pool, e: Event, starts: set<StartOf>)
    requires Rotates(p, e) && OnlyStarts(p.startedAt, starts)
    ensures forall x :: x in p.startedAt ==> StartOf(Renames(p, e, x), p.startedAt[x]) in StartsAfter(p, e, starts)
  {
    forall x | x in p.startedAt ensures StartOf(Renames(p, e, x), p.startedAt[x]) in StartsAfter(p, e, starts) {
      var one := StartOf(x, p.startedAt[x]);
      assert one in starts;
    }
  }

  lemma {:induction false} OnlyStartsInRun(s: System, es: seq<Event>)
    requires s.pool.startedAt == map[]
    ensures OnlyStarts(Run(s, es).pool.startedAt, Started(s, es))
  {
    if es != [] {
      OnlyStartsInRun(s, es[..|es| - 1]);
      OnlyStartsStep(Run(s, es[..|es| - 1]).pool, es[|es| - 1], Started(s, es[..|es| - 1]));
    }
  }

  /** Neither pending nor running, under any token. */
  ghost predicate IsIdle(p: Pool, u: Token) {
    u !in p.pendingSet && forall x :: x in p.active ==> ResolveIn(p, x) != u
  }

  /** Every check that was started for the account is at least thirty seconds old. */
  ghost predicate NoneRecent(p: Pool, starts: set<StartOf>, u: Token, now: int) {
    forall x :: x in starts && ResolveIn(p, x.token) == u ==> x.time + 30 <= now
  }

  lemma IdleIsQueued(p: Pool, starts: set<StartOf>, name: Token, force: bool, now: int, pick: Token)
    requires OnlyStarts(p.startedAt, starts) && name != "" && IsIdle(p, ResolveIn(p, name))
    requires force || (now >= 30 && NoneRecent(p, starts, ResolveIn(p, name), now))
    ensures Schedule(p, name, force, now, pick).pending == p.pending + [ResolveIn(p, name)]
  {
    var u := ResolveIn(p, name);
    var q := p.(startedAt := Remembered(p, now));
    assert ActiveFor(p, u) == {};
    forall x | !force && x in q.startedAt && ResolveIn(q, x) == u ensures now - q.startedAt[x] >= 30 {
      var one := StartOf(x, p.startedAt[x]);
      assert one in starts && ResolveIn(p, one.token) == ResolveIn(q, x);
    }
  }

  /** A request for an account that is neither pending nor running queues it last, if it is forced, or if the
      clock has run for thirty seconds and no check of the account was started in the last thirty: nothing else
      that happened in the run makes a request be refused. */
  lemma IdleAccountIsQueued(s: System, es: seq<Event>, name: Token, force: bool, now: int, pick: Token)
    requires s.pool.startedAt == map[] && name != ""
    requires var end := Run(s, es).pool; IsIdle(end, ResolveIn(end, name))
    requires force || (now >= 30 && NoneRecent(Run(s, es).pool, Started(s, es), ResolveIn(Run(s, es).pool, name), now))
    ensures var end := Run(s, es).pool; Schedule(end, name, force, now, pick).pending == end.pending + [ResolveIn(end, name)]
  {
    OnlyStartsInRun(s, es);
    IdleIsQueued(Run(s, es).pool, Started(s, es), name, force, now, pick);
  }
}
