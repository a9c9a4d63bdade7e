/** The selection loop of image accounts: take a slot, check the account remotely, keep it or try the
    next one, while other callers run any of the lock regions in between. It is given here as a function
    of the state it starts in and of the world of answers. */
module ImageSelection {
  import opened Sequences
  import opened AliasGraph
  import opened AccountPool
  import opened SlotConservation
  import opened CallerView
  import opened ImageCheck

  // ---- Taking a slot ----

  /** The newest lease is a new one of `me`, on a live candidate. */
  ghost predicate Took(s: System, me: nat, f: Filters, excluded: set<Token>, t: Token) {
    && s.leases != []
    && s.leases[|s.leases| - 1] == NewLease(me, t)
    && AccountOf(s, |s.leases| - 1) == t
    && IsCandidate(s.pool, f, excluded, t)
  }

  ghost function NewestIf(s: System, b: bool): set<nat> {
    if b && s.leases != [] then {|s.leases| - 1} else {}
  }

  lemma TakenSlot(s: System, me: nat, f: Filters, excluded: set<Token>)
    requires SlotInv(s) && AcquireResult(s.pool, f, excluded).Got?
    ensures var n := Step(s, Acquiring(me, f, excluded));
            && SlotInv(n) && n.leases == s.leases + [NewLease(me, AcquireResult(s.pool, f, excluded).token)]
            && Took(n, me, f, excluded, AcquireResult(s.pool, f, excluded).token)
            && Outstanding(n, me) == Outstanding(s, me) + {|s.leases|}
  {
    var n, t := Step(s, Acquiring(me, f, excluded)), AcquireResult(s.pool, f, excluded).token;
    AcquireKeepsSlots(s, me, f, excluded);
    AcquiredIsCandidate(s.pool, f, excluded);
    TakenIsCandidate(s.pool, f, excluded, t);
    OneMoreHeld(s, n, me, t);
  }

  lemma TakenIsCandidate(p: Pool, f: Filters, excluded: set<Token>, t: Token)
    requires IsCandidate(p, f, excluded, t)
    ensures IsCandidate(Taken(p, t), f, excluded, t) && ResolveIn(Taken(p, t), t) == t
  {
    LiveResolvesToItself(Taken(p, t), t);
  }

  lemma OneMoreHeld(s: System, n: System, me: nat, t: Token)
    requires n.leases == s.leases + [NewLease(me, t)]
    ensures Outstanding(n, me) == Outstanding(s, me) + {|s.leases|}
  {
    forall i: nat ensures Holds(n, me, i) <==> Holds(s, me, i) || i == |s.leases| {
    }
  }

  /** The outstanding slots of a caller before and after: one more, or the same. */
  ghost predicate Gained(a: System, b: System, me: nat, ids: set<nat>) {
    && SlotInv(b) && |a.leases| <= |b.leases|
    && Outstanding(b, me) == Outstanding(a, me) + ids
    && (forall i :: i in ids ==> |a.leases| <= i < |b.leases|)
    && (forall i :: 0 <= i < |a.leases| ==> a.leases[i].owner == me ==> b.leases[i].owner == me && b.leases[i].token == a.leases[i].token)
  }

  lemma GainedNothing(a: System, b: System, me: nat)
    requires Kept(a, b, me)
    ensures Gained(a, b, me, {})
  {
    KeptOutstanding(a, b, me);
  }

  lemma GainedTransitive(a: System, b: System, c: System, me: nat, ids: set<nat>)
    requires Gained(a, b, me, {}) && Gained(b, c, me, ids)
    ensures Gained(a, c, me, ids)
  {
  }

  datatype Wait = Wait(state: System, got: Acquired)

  /** One pass of the acquisition loop, after other callers had their turn. */
  ghost function Pass(w: World, k: nat, s: System, f: Filters, excluded: set<Token>): Wait {
    var b := Interfered(w, k, s, |s.leases|);
    Wait(Step(b, Acquiring(w.me, f, excluded)), AcquireResult(b.pool, f, excluded))
  }

  /** Waiting for a slot: one pass of the acquisition loop after another, with other callers in between.
      The program waits without end; here the passes are counted and `AllBusy` stands for a run that is
      still waiting. */
  ghost function WaitingFrom(w: World, t: Turns, s: System, f: Filters, excluded: set<Token>): Wait
    decreases t.left
  {
    if t.left == 0 then Wait(s, AllBusy)
    else
      var pass := Pass(w, t.next, s, f, excluded);
      if pass.got.AllBusy? then WaitingFrom(w, Onwards(t), pass.state, f, excluded) else pass
  }

  ghost function Waiting(w: World, k: nat, s: System, f: Filters, excluded: set<Token>, passes: nat): Wait {
    WaitingFrom(w, Turns(k, passes), s, f, excluded)
  }

  /** What waiting leaves: a slot on a new candidate; or no account is ready, and the cause is reported; or
      every ready account is at its limit. */
  ghost predicate WaitedSo(a: System, b: System, me: nat, f: Filters, excluded: set<Token>, r: Acquired) {
    && Gained(a, b, me, NewestIf(b, r.Got?))
    && (r.Got? ==> Took(b, me, f, excluded, r.token))
    && (r.NoReady? ==> r.error == NoReadyError(b.pool, f, excluded) && ReadyTokens(b.pool, f, excluded) == [])
    && (r.AllBusy? ==> AllAreBusy(b.pool, f, excluded))
  }

  ghost predicate AllAreBusy(p: Pool, f: Filters, excluded: set<Token>) {
    ReadyTokens(p, f, excluded) != [] && AvailableTokens(p, f, excluded) == []
  }

  lemma PassIsWaited(a: System, s: System, me: nat, f: Filters, excluded: set<Token>)
    requires Kept(a, s, me)
    ensures WaitedSo(a, Step(s, Acquiring(me, f, excluded)), me, f, excluded, AcquireResult(s.pool, f, excluded))
  {
    var r, n := AcquireResult(s.pool, f, excluded), Step(s, Acquiring(me, f, excluded));
    GainedNothing(a, s, me);
    if r.Got? {
      TakenSlot(s, me, f, excluded);
      GainedNewest(a, s, n, me, r.token);
    } else {
      assert n == s;
    }
  }

  lemma GainedNewest(a: System, s: System, n: System, me: nat, t: Token)
    requires Gained(a, s, me, {}) && SlotInv(n) && n.leases == s.leases + [NewLease(me, t)]
    requires Outstanding(n, me) == Outstanding(s, me) + {|s.leases|}
    ensures Gained(a, n, me, NewestIf(n, true))
  {
  }

  lemma WaitedAfter(a: System, n: System, b: System, me: nat, f: Filters, excluded: set<Token>, r: Acquired)
    requires Gained(a, n, me, {}) && WaitedSo(n, b, me, f, excluded, r)
    ensures WaitedSo(a, b, me, f, excluded, r)
  {
    GainedTransitive(a, n, b, me, NewestIf(b, r.Got?));
  }

  lemma BusyGainsNothing(a: System, b: System, me: nat, f: Filters, excluded: set<Token>, r: Acquired)
    requires WaitedSo(a, b, me, f, excluded, r) && r.AllBusy?
    ensures SlotInv(b) && Gained(a, b, me, {})
  {
  }

  lemma PassOfWorld(w: World, k: nat, s: System, f: Filters, excluded: set<Token>)
    requires SlotInv(s) && Fair(w)
    ensures var Wait(n, r) := Pass(w, k, s, f, excluded); WaitedSo(s, n, w.me, f, excluded, r)
  {
    InterferedKeeps(w, k, s, |s.leases|);
    PassIsWaited(s, Interfered(w, k, s, |s.leases|), w.me, f, excluded);
  }

  /** A pass ends the waiting or leaves it with one pass less. */
  lemma WaitingOn(w: World, t: Turns, s: System, f: Filters, excluded: set<Token>)
    requires t.left > 0
    ensures var pass := Pass(w, t.next, s, f, excluded);
            WaitingFrom(w, t, s, f, excluded) ==
            if pass.got.AllBusy? then WaitingFrom(w, Onwards(t), pass.state, f, excluded) else pass
  {
  }

  lemma {:induction false} WaitingFromIsWaited(w: World, t: Turns, s: System, f: Filters, excluded: set<Token>)
    requires SlotInv(s) && Fair(w) && t.left > 0
    ensures var c := WaitingFrom(w, t, s, f, excluded); WaitedSo(s, c.state, w.me, f, excluded, c.got)
    decreases t.left
  {
    PassOfWorld(w, t.next, s, f, excluded);
    WaitingOn(w, t, s, f, excluded);
    var pass := Pass(w, t.next, s, f, excluded);
    if pass.got.AllBusy? && t.left > 1 {
      BusyGainsNothing(s, pass.state, w.me, f, excluded, pass.got);
      WaitingFromIsWaited(w, Onwards(t), pass.state, f, excluded);
      var c := WaitingFrom(w, Onwards(t), pass.state, f, excluded);
      WaitedAfter(s, pass.state, c.state, w.me, f, excluded, c.got);
    }
  }

  lemma WaitingIsWaited(w: World, k: nat, s: System, f: Filters, excluded: set<Token>, passes: nat)
    requires SlotInv(s) && Fair(w) && passes > 0
    ensures var c := Waiting(w, k, s, f, excluded, passes); WaitedSo(s, c.state, w.me, f, excluded, c.got)
  {
    WaitingFromIsWaited(w, Turns(k, passes), s, f, excluded);
  }

  lemma WaitingGains(w: World, k: nat, s: System, f: Filters, excluded: set<Token>, passes: nat)
    requires SlotInv(s) && Fair(w)
    ensures var Wait(b, r) := Waiting(w, k, s, f, excluded, passes); Gained(s, b, w.me, NewestIf(b, r.Got?))
    ensures passes == 0 ==> Waiting(w, k, s, f, excluded, passes).got.AllBusy?
  {
    if passes > 0 {
      WaitingIsWaited(w, k, s, f, excluded, passes);
    }
  }

  // ---- One attempt ----

  const MAX_ATTEMPTS := 20

  datatype Verdict = Raising | Exhausting | Unusable | Usable

  /** What the selection makes of the deciding answer. */
  function VerdictOf(f: Filters, answer: InfoReply): Verdict {
    match answer
    case Fields(a) =>
      if IsAvailable(a) && Matches(a, f) then Usable else if a.status.Limited? then Exhausting else Unusable
    case _ => Raising
  }

  /** The remote end confirmed the account limited. */
  predicate ConfirmsLimited(answer: InfoReply) {
    answer.Fields? && answer.account.status.Limited?
  }

  datatype Selected = Chosen(token: Token) | NoneLeft(error: SelectionError) | StillWaiting

  /** The returned token is the live token of the account that the lease stands for, which passes
      the filters. */
  ghost predicate Delivered(s: System, me: nat, f: Filters, id: nat, t: Token) {
    && Holds(s, me, id) && Live(s, id)
    && t == AccountOf(s, id)
    && IsAvailable(s.pool.accounts[t]) && Matches(s.pool.accounts[t], f)
  }

  datatype Tried = NoCandidate(error: SelectionError) | Busy | Tried(id: nat, token: Token, named: Token, asked: nat)

  /** The check of a taken slot, and its release unless the account is usable. */
  ghost function Judging(w: World, k: nat, s: System, f: Filters, id: nat, token: Token): (System, Tried) {
    var (b, checked, asked) := Fetching(w, k, s, id, token);
    var named := if checked.Info? then checked.account.accessToken else token;
    if checked.Info? && IsAvailable(checked.account) && Matches(checked.account, f) then (b, Tried(id, token, named, asked))
    else (Step(b, Settling(id, token, Plain)), Tried(id, token, named, asked))
  }

  /** What a caller still knows of its older leases. */
  ghost predicate SameOwn(a: System, b: System, me: nat) {
    && SlotInv(b) && |a.leases| <= |b.leases|
    && (forall i :: 0 <= i < |a.leases| && a.leases[i].owner == me ==>
          b.leases[i].owner == me && b.leases[i].token == a.leases[i].token)
  }

  /** After the check of the slot `id` that began in `a`: the slot is kept if and only if the deciding answer
      makes the account usable; a kept slot is delivered if and only if the check did not find the refresh
      credential dead while invalid accounts are removed. */
  ghost predicate Judged(a: System, b: System, w: World, k: nat, f: Filters, id: nat, token: Token, named: Token, answer: InfoReply) {
    && SameOwn(a, b, w.me) && id < |b.leases|
    && (if VerdictOf(f, answer).Usable? then
          && Outstanding(b, w.me) == Outstanding(a, w.me)
          && IsName(b.leases[id], named)
          && (if w.removeInvalid && FindsDead(w, k, a, id, token) then !Live(b, id) else Delivered(b, w.me, f, id, named))
        else Outstanding(b, w.me) == Outstanding(a, w.me) - {id})
  }

  lemma SameVerdict(a: Account, b: Account, f: Filters)
    requires SameRecord(a, b)
    ensures IsAvailable(a) == IsAvailable(b) && Matches(a, f) == Matches(b, f) && a.status == b.status
  {
    assert a.status == a.(accessToken := "").status && a.source == a.(accessToken := "").source;
    assert a.plan == a.(accessToken := "").plan && a.quota == a.(accessToken := "").quota;
    assert a.quotaUnknown == a.(accessToken := "").quotaUnknown;
  }

  lemma KeptIsJudged(a: System, b: System, w: World, k: nat, f: Filters, id: nat, token: Token, checked: Checked, answer: InfoReply)
    requires Live(a, id) && Reported(a, b, w, id, checked, answer)
    requires checked.Info? && IsAvailable(checked.account) && Matches(checked.account, f)
    requires checked.died <==> FindsDead(w, k, a, id, token)
    ensures Judged(a, b, w, k, f, id, token, checked.account.accessToken, answer)
  {
    KeptOutstanding(a, b, w.me);
    SameVerdict(checked.account, answer.account, f);
  }

  lemma ReleasedIsJudged(a: System, b: System, w: World, k: nat, f: Filters, id: nat, token: Token, checked: Checked, answer: InfoReply, named: Token)
    requires Reported(a, b, w, id, checked, answer) && HasName(b, w.me, id, token)
    requires checked.Info? ==> !(IsAvailable(checked.account) && Matches(checked.account, f))
    ensures Judged(a, Step(b, Settling(id, token, Plain)), w, k, f, id, token, named, answer)
  {
    KeptOutstanding(a, b, w.me);
    OneReleased(b, w.me, id, token);
    if checked.Info? {
      SameVerdict(checked.account, answer.account, f);
    }
  }

  lemma OneReleased(s: System, me: nat, id: nat, name: Token)
    requires SlotInv(s) && HasName(s, me, id, name)
    ensures var n := Step(s, Settling(id, name, Plain));
            && SlotInv(n) && n.leases == s.leases[id := s.leases[id].(held := false)]
            && Outstanding(n, me) == Outstanding(s, me) - {id}
  {
    var n := Step(s, Settling(id, name, Plain));
    SettleKeepsSlots(s, id, name, Plain);
    forall i: nat ensures Holds(n, me, i) <==> Holds(s, me, i) && i != id {
    }
  }

  lemma JudgingIsJudged(w: World, k: nat, s: System, f: Filters, id: nat, token: Token)
    requires SlotInv(s) && Fair(w) && HasName(s, w.me, id, token) && Live(s, id)
    ensures var (b, r) := Judging(w, k, s, f, id, token);
            && r.Tried? && r.id == id && r.token == token && Decides(w, k, r.asked)
            && Judged(s, b, w, k, f, id, token, r.named, w.info(r.asked))
  {
    var (b, checked, asked) := Fetching(w, k, s, id, token);
    FetchingReports(w, k, s, id, token);
    FetchingDiesIff(w, k, s, id, token);
    StillNamed(s, b, w.me, id, token);
    if checked.Info? && IsAvailable(checked.account) && Matches(checked.account, f) {
      KeptIsJudged(s, b, w, k, f, id, token, checked, w.info(asked));
    } else {
      ReleasedIsJudged(s, b, w, k, f, id, token, checked, w.info(asked), if checked.Info? then checked.account.accessToken else token);
    }
  }

  /** The first query of the attempt that starts at `k`. */
  function FirstQuery(k: nat, passes: nat): nat {
    k + passes
  }

  function LastId(s: System): nat {
    if s.leases == [] then 0 else |s.leases| - 1
  }

  /** One attempt: a slot and its check. */
  ghost function Trying(w: World, k: nat, s: System, f: Filters, excluded: set<Token>, passes: nat): (System, Tried) {
    var Wait(b, got) := Waiting(w, k, s, f, excluded, passes);
    match got
    case AllBusy => (b, Busy)
    case NoReady(error) => (b, NoCandidate(error))
    case Got(token) => Judging(w, FirstQuery(k, passes), b, f, LastId(b), token)
  }

  /** What one attempt does. It gives up only when no account is ready, or is still waiting because every
      ready one is busy. Otherwise its slot is one on a new candidate; it is kept if and only if the query
      that decides makes the account usable, and delivered if and only if the check, which begins when the
      slot is taken, does not find the refresh credential dead while invalid accounts are removed. */
  ghost predicate TriedSo(a: System, b: System, w: World, f: Filters, excluded: set<Token>, k: nat, passes: nat, r: Tried) {
    match r
    case NoCandidate(error) =>
      Gained(a, b, w.me, {}) && error == NoReadyError(b.pool, f, excluded) && ReadyTokens(b.pool, f, excluded) == []
    case Busy => Gained(a, b, w.me, {}) && (passes > 0 ==> AllAreBusy(b.pool, f, excluded))
    case Tried(id, token, named, asked) =>
      var taken := Waiting(w, k, a, f, excluded, passes).state;
      && Gained(a, b, w.me, if VerdictOf(f, w.info(asked)).Usable? then {id} else {})
      && |a.leases| <= id < |b.leases| && b.leases[id].owner == w.me && b.leases[id].token == token
      && token !in excluded && Decides(w, FirstQuery(k, passes), asked)
      && SlotInv(taken) && Took(taken, w.me, f, excluded, token) && id == LastId(taken)
      && (VerdictOf(f, w.info(asked)).Usable? ==>
            && IsName(b.leases[id], named)
            && (if w.removeInvalid && FindsDead(w, FirstQuery(k, passes), taken, id, token) then !Live(b, id)
                else Delivered(b, w.me, f, id, named)))
  }

  lemma AttemptIsTried(a: System, b: System, c: System, w: World, f: Filters, excluded: set<Token>, k: nat, passes: nat, r: Tried)
    requires r.Tried? && b.leases != [] && r.id == LastId(b) && b == Waiting(w, k, a, f, excluded, passes).state
    requires Gained(a, b, w.me, NewestIf(b, true)) && Took(b, w.me, f, excluded, r.token)
    requires Judged(b, c, w, FirstQuery(k, passes), f, r.id, r.token, r.named, w.info(r.asked)) && Decides(w, FirstQuery(k, passes), r.asked)
    ensures TriedSo(a, c, w, f, excluded, k, passes, r)
  {
    if VerdictOf(f, w.info(r.asked)).Usable? {
      JudgedGains(a, b, c, w.me, r.id, {r.id});
    } else {
      JudgedGains(a, b, c, w.me, r.id, {});
    }
  }

  lemma JudgedGains(a: System, b: System, c: System, me: nat, id: nat, kept: set<nat>)
    requires b.leases != [] && id == LastId(b) && Gained(a, b, me, NewestIf(b, true)) && SameOwn(b, c, me)
    requires Outstanding(c, me) == Outstanding(b, me) - ({id} - kept) && kept <= {id}
    ensures Gained(a, c, me, kept)
  {
    assert id !in Outstanding(a, me);
  }

  lemma TryingIsTried(w: World, k: nat, s: System, f: Filters, excluded: set<Token>, passes: nat)
    requires SlotInv(s) && Fair(w)
    ensures var (b, r) := Trying(w, k, s, f, excluded, passes); TriedSo(s, b, w, f, excluded, k, passes, r)
  {
    var Wait(b, got) := Waiting(w, k, s, f, excluded, passes);
    WaitingGains(w, k, s, f, excluded, passes);
    if passes > 0 {
      WaitingIsWaited(w, k, s, f, excluded, passes);
    }
    if got.Got? {
      TookIsNamed(b, w.me, f, excluded, got.token);
      JudgingIsJudged(w, FirstQuery(k, passes), b, f, LastId(b), got.token);
      var (c, r) := Judging(w, FirstQuery(k, passes), b, f, LastId(b), got.token);
      AttemptIsTried(s, b, c, w, f, excluded, k, passes, r);
    }
  }

  lemma TookIsNamed(s: System, me: nat, f: Filters, excluded: set<Token>, t: Token)
    requires Took(s, me, f, excluded, t)
    ensures HasName(s, me, LastId(s), t) && Live(s, LastId(s))
  {
  }

  // ---- The attempts of a selection ----

  /** What the loop remembers: the leases of its attempts, their tokens, the tokens that the checks
      reported, and the deciding queries. */
  datatype Tally = Tally(
    ids: seq<nat>, tokens: seq<Token>, names: seq<Token>, asked: seq<nat>,
    attempted: set<Token>, sawExhausted: bool, sawUnavailable: bool)

  /** How often the world was consulted before the i-th attempt, at most. */
  function RoundAt(passes: nat, i: nat): nat {
    (passes + 10) * i
  }

  /** The attempts: new leases of the caller, one after the other, on different tokens that were not
      excluded, each with the query that decided it. */
  ghost predicate Attempts(w: World, start: System, s: System, excluded: set<Token>, passes: nat, ids: seq<nat>,
          tokens: seq<Token>, asked: seq<nat>) {
    && |ids| == |tokens| == |asked| <= MAX_ATTEMPTS
    && (forall i :: 0 <= i < |ids| ==>
          |start.leases| <= ids[i] < |s.leases| && s.leases[ids[i]].owner == w.me && s.leases[ids[i]].token == tokens[i])
    && (forall i, j :: 0 <= i < j < |ids| ==> ids[i] < ids[j])
    && NoDuplicates(tokens)
    && (forall t :: t in tokens ==> t !in excluded)
    && (forall i :: 0 <= i < |asked| ==> Decides(w, FirstQuery(RoundAt(passes, i), passes), asked[i]))
  }

  lemma AttemptsGrow(w: World, start: System, a: System, b: System, excluded: set<Token>, passes: nat, ids: seq<nat>,
          tokens: seq<Token>, asked: seq<nat>, more: set<nat>)
    requires Attempts(w, start, a, excluded, passes, ids, tokens, asked) && Gained(a, b, w.me, more)
    ensures Attempts(w, start, b, excluded, passes, ids, tokens, asked)
  {
  }

  lemma AttemptsAppend(w: World, start: System, a: System, b: System, excluded: set<Token>, passes: nat,
          ids: seq<nat>, tokens: seq<Token>, asked: seq<nat>, more: set<nat>, id: nat, t: Token, q: nat)
    requires Attempts(w, start, a, excluded, passes, ids, tokens, asked) && Gained(a, b, w.me, more)
    requires |start.leases| <= |a.leases| <= id < |b.leases| && b.leases[id].owner == w.me && b.leases[id].token == t
    requires t !in tokens && t !in excluded && |ids| < MAX_ATTEMPTS && Decides(w, FirstQuery(RoundAt(passes, |ids|), passes), q)
    ensures Attempts(w, start, b, excluded, passes, ids + [id], tokens + [t], asked + [q])
  {
    AttemptsGrow(w, start, a, b, excluded, passes, ids, tokens, asked, more);
  }

  /** The two flags of the loop, read off the answers so far; none of them made an account usable. */
  ghost predicate Flags(w: World, f: Filters, asked: seq<nat>, sawExhausted: bool, sawUnavailable: bool) {
    && (forall q :: q in asked ==> !VerdictOf(f, w.info(q)).Usable?)
    && (sawExhausted <==> exists q :: q in asked && ConfirmsLimited(w.info(q)))
    && (sawUnavailable <==> exists q :: q in asked && !ConfirmsLimited(w.info(q)))
  }

  lemma FlagsStep(w: World, f: Filters, asked: seq<nat>, q: nat, sawExhausted: bool, sawUnavailable: bool)
    requires Flags(w, f, asked, sawExhausted, sawUnavailable) && !VerdictOf(f, w.info(q)).Usable?
    ensures Flags(w, f, asked + [q], sawExhausted || ConfirmsLimited(w.info(q)), sawUnavailable || !ConfirmsLimited(w.info(q)))
  {
    assert q in asked + [q];
    assert forall x :: x in asked + [q] <==> x in asked || x == q;
  }

  ghost predicate TallyOk(w: World, f: Filters, start: System, s: System, excluded: set<Token>, passes: nat, t: Tally) {
    && Gained(start, s, w.me, {})
    && Attempts(w, start, s, excluded, passes, t.ids, t.tokens, t.asked)
    && |t.names| == |t.ids| && t.attempted == excluded + Elements(t.tokens) + Elements(t.names)
    && Flags(w, f, t.asked, t.sawExhausted, t.sawUnavailable)
  }

  function Counted(t: Tally, one: Tried, limited: bool): Tally
    requires one.Tried?
  {
    Tally(t.ids + [one.id], t.tokens + [one.token], t.names + [one.named], t.asked + [one.asked], t.attempted + {one.token, one.named},
          t.sawExhausted || limited, t.sawUnavailable || !limited)
  }

  lemma TallyAdvances(w: World, f: Filters, start: System, a: System, b: System, excluded: set<Token>, passes: nat, t: Tally, one: Tried)
    requires TallyOk(w, f, start, a, excluded, passes, t) && |t.ids| < MAX_ATTEMPTS
    requires one.Tried? && !VerdictOf(f, w.info(one.asked)).Usable?
    requires TriedSo(a, b, w, f, t.attempted, RoundAt(passes, |t.ids|), passes, one)
    ensures TallyOk(w, f, start, b, excluded, passes, Counted(t, one, ConfirmsLimited(w.info(one.asked))))
  {
    GainedTransitive(start, a, b, w.me, {});
    AttemptsAppend(w, start, a, b, excluded, passes, t.ids, t.tokens, t.asked, {}, one.id, one.token, one.asked);
    FlagsStep(w, f, t.asked, one.asked, t.sawExhausted, t.sawUnavailable);
    AttemptedGrows(excluded, t.tokens, t.names, one.token, one.named);
  }

  lemma AttemptedGrows(excluded: set<Token>, tokens: seq<Token>, names: seq<Token>, token: Token, name: Token)
    ensures excluded + Elements(tokens + [token]) + Elements(names + [name]) ==
            excluded + Elements(tokens) + Elements(names) + {token, name}
  {
  }

  lemma TallyWaits(w: World, f: Filters, start: System, a: System, b: System, excluded: set<Token>, passes: nat, t: Tally)
    requires TallyOk(w, f, start, a, excluded, passes, t) && Gained(a, b, w.me, {})
    ensures TallyOk(w, f, start, b, excluded, passes, t)
  {
    GainedTransitive(start, a, b, w.me, {});
    AttemptsGrow(w, start, a, b, excluded, passes, t.ids, t.tokens, t.asked, {});
  }

  function Exit(t: Tally): Selected {
    NoneLeft(if t.sawExhausted && !t.sawUnavailable then QuotaExhausted else Unavailable)
  }

  lemma ExitMeaning(w: World, f: Filters, t: Tally)
    requires Flags(w, f, t.asked, t.sawExhausted, t.sawUnavailable)
    ensures t.asked != [] ==> (Exit(t).error.QuotaExhausted? <==> forall q :: q in t.asked ==> ConfirmsLimited(w.info(q)))
    ensures t.asked == [] ==> Exit(t).error == Unavailable
  {
    if t.asked != [] {
      assert t.asked[0] in t.asked;
    }
  }

  /** The result, the attempts, and the tokens that were not to be tried again. */
  datatype Selection = Selection(result: Selected, ids: seq<nat>, tokens: seq<Token>, names: seq<Token>, asked: seq<nat>, attempted: set<Token>)

  /** What a caller gets from a selection. It holds one slot more than before, that of its last attempt,
      and knows the returned token as a name of it, or it holds no more than before. */
  ghost predicate Balanced(a: System, b: System, me: nat, x: Selection) {
    if x.result.Chosen? then
      && x.ids != [] && Gained(a, b, me, {x.ids[|x.ids| - 1]})
      && x.ids[|x.ids| - 1] < |b.leases| && IsName(b.leases[x.ids[|x.ids| - 1]], x.result.token)
    else Gained(a, b, me, {})
  }

  /** What the answers of the remote end say about the result: the last attempt of a choice, and no other,
      was answered with a usable account; after attempts without a choice, exhausted quota is reported if
      and only if every attempt was answered with a limited account. */
  ghost predicate AnsweredSo(w: World, f: Filters, x: Selection) {
    && (x.result.Chosen? && x.asked != [] ==> VerdictOf(f, w.info(x.asked[|x.asked| - 1])).Usable?)
    && (forall i :: 0 <= i < |x.asked| && (x.result.Chosen? ==> i < |x.asked| - 1) ==> !VerdictOf(f, w.info(x.asked[i])).Usable?)
    && (x.result.NoneLeft? && x.asked != [] ==>
          (x.result.error.QuotaExhausted? <==> forall q :: q in x.asked ==> ConfirmsLimited(w.info(q))))
  }

  /** When the loop gives up: before twenty attempts only if no account is ready outside the tokens tried, and
      it is still waiting only if every ready one is busy. */
  ghost predicate GivesUpSo(p: Pool, f: Filters, passes: nat, x: Selection) {
    && (x.result.NoneLeft? && |x.ids| < MAX_ATTEMPTS ==> ReadyTokens(p, f, x.attempted) == [])
    && (x.result.StillWaiting? && passes > 0 ==> AllAreBusy(p, f, x.attempted))
  }

  /** What was not to be tried again when the selection ended: what the caller excluded, and the tokens and
      reported names of the attempts that did not lead to a choice. */
  ghost predicate Remembers(excluded: set<Token>, x: Selection) {
    && |x.tokens| == |x.names| == |x.ids| && (x.result.Chosen? ==> x.ids != [])
    && var n := if x.result.Chosen? then |x.ids| - 1 else |x.ids|;
       x.attempted == excluded + Elements(x.tokens[..n]) + Elements(x.names[..n])
  }

  /** Everything that a selection with attempts promises, apart from the delivery and the first cause. */
  ghost predicate SelectedSo(a: System, b: System, w: World, f: Filters, excluded: set<Token>, passes: nat, x: Selection) {
    && Balanced(a, b, w.me, x)
    && Attempts(w, a, b, excluded, passes, x.ids, x.tokens, x.asked)
    && Remembers(excluded, x)
    && AnsweredSo(w, f, x) && GivesUpSo(b.pool, f, passes, x)
  }

  /** The cause reported before any attempt. */
  ghost predicate FirstCause(p: Pool, f: Filters, excluded: set<Token>, x: Selection) {
    x.result.NoneLeft? && x.ids == [] ==>
      x.result.error == if excluded == {} then NoReadyError(p, f, excluded) else Unavailable
  }

  /** What becomes of the slot of a choice. Its check begins in the state `taken`, in which the slot has just
      been taken on a candidate. The returned token is delivered, unless the check finds the refresh credential
      dead while invalid accounts are removed: then the account is gone. */
  ghost predicate DeliverySo(taken: System, b: System, w: World, f: Filters, passes: nat, x: Selection) {
    x.result.Chosen? && x.ids != [] && |x.tokens| == |x.ids| ==>
      var last := |x.ids| - 1;
      && SlotInv(taken) && Took(taken, w.me, f, x.attempted, x.tokens[last]) && x.ids[last] == LastId(taken)
      && (if w.removeInvalid && FindsDead(w, FirstQuery(RoundAt(passes, last), passes), taken, x.ids[last], x.tokens[last])
          then !Live(b, x.ids[last])
          else Delivered(b, w.me, f, x.ids[last], x.result.token))
  }

  function NoTally(excluded: set<Token>): Tally {
    Tally([], [], [], [], excluded, false, false)
  }

  lemma StartsTally(w: World, f: Filters, s: System, excluded: set<Token>, passes: nat)
    requires SlotInv(s)
    ensures TallyOk(w, f, s, s, excluded, passes, NoTally(excluded))
  {
  }

  /** The result when no choice is made. */
  function Ended(t: Tally, result: Selected): Selection {
    Selection(result, t.ids, t.tokens, t.names, t.asked, t.attempted)
  }

  function NoChoice(t: Tally, one: Tried): Selection
    requires !one.Tried?
  {
    Ended(t, if one.Busy? then StillWaiting else if t.attempted != {} then Exit(t) else NoneLeft(one.error))
  }

  function Choice(t: Tally, one: Tried): Selection
    requires one.Tried?
  {
    Selection(Chosen(one.named), t.ids + [one.id], t.tokens + [one.token], t.names + [one.named], t.asked + [one.asked], t.attempted)
  }

  /** The end of a selection, what it returns, and the state in which its last slot was taken. */
  datatype Selecting = Selecting(state: System, selection: Selection, taken: System)

  /** The rounds of the loop that are left. */
  ghost function Rounds(w: World, s: System, f: Filters, passes: nat, t: Tally): Selecting
    requires |t.ids| <= MAX_ATTEMPTS
    decreases MAX_ATTEMPTS - |t.ids|
  {
    if |t.ids| == MAX_ATTEMPTS then Selecting(s, Ended(t, Exit(t)), s)
    else
      var (b, one) := Trying(w, RoundAt(passes, |t.ids|), s, f, t.attempted, passes);
      if !one.Tried? then Selecting(b, NoChoice(t, one), s)
      else if VerdictOf(f, w.info(one.asked)).Usable? then
        Selecting(b, Choice(t, one), Waiting(w, RoundAt(passes, |t.ids|), s, f, t.attempted, passes).state)
      else Rounds(w, b, f, passes, Counted(t, one, ConfirmsLimited(w.info(one.asked))))
  }

  /** Everything that a selection with attempts promises. */
  ghost predicate Promised(a: System, r: Selecting, w: World, f: Filters, excluded: set<Token>, passes: nat) {
    && SelectedSo(a, r.state, w, f, excluded, passes, r.selection)
    && DeliverySo(r.taken, r.state, w, f, passes, r.selection)
    && FirstCause(r.state.pool, f, excluded, r.selection)
  }

  lemma {:induction false} RoundsPromise(w: World, start: System, s: System, f: Filters, excluded: set<Token>, passes: nat, t: Tally)
    requires Fair(w) && TallyOk(w, f, start, s, excluded, passes, t)
    ensures Promised(start, Rounds(w, s, f, passes, t), w, f, excluded, passes)
    decreases MAX_ATTEMPTS - |t.ids|
  {
    if |t.ids| == MAX_ATTEMPTS {
      EndIsPromised(w, f, start, s, s, excluded, passes, t, Exit(t));
    } else {
      var k := RoundAt(passes, |t.ids|);
      var (b, one) := Trying(w, k, s, f, t.attempted, passes);
      TryingIsTried(w, k, s, f, t.attempted, passes);
      if !one.Tried? {
        NoneIsPromised(w, f, start, s, b, excluded, passes, t, one);
      } else if VerdictOf(f, w.info(one.asked)).Usable? {
        ChoiceIsPromised(w, f, start, s, b, excluded, passes, t, one);
      } else {
        TallyAdvances(w, f, start, s, b, excluded, passes, t, one);
        RoundsPromise(w, start, b, f, excluded, passes, Counted(t, one, ConfirmsLimited(w.info(one.asked))));
      }
    }
  }

  /** The end of the loop without a choice. */
  lemma EndIsPromised(w: World, f: Filters, start: System, s: System, taken: System, excluded: set<Token>, passes: nat, t: Tally, result: Selected)
    requires TallyOk(w, f, start, s, excluded, passes, t)
    requires result.StillWaiting? || (result.NoneLeft? && t.ids == []) || result == Exit(t)
    requires GivesUpSo(s.pool, f, passes, Ended(t, result)) && FirstCause(s.pool, f, excluded, Ended(t, result))
    ensures Promised(start, Selecting(s, Ended(t, result), taken), w, f, excluded, passes)
  {
    ExitMeaning(w, f, t);
    EndRemembers(t, result, excluded);
  }

  lemma EndRemembers(t: Tally, result: Selected, excluded: set<Token>)
    requires |t.tokens| == |t.names| == |t.ids| && t.attempted == excluded + Elements(t.tokens) + Elements(t.names) && !result.Chosen?
    ensures Remembers(excluded, Ended(t, result))
  {
    assert t.names[..|t.names|] == t.names && t.tokens[..|t.tokens|] == t.tokens;
  }

  lemma NoneIsPromised(w: World, f: Filters, start: System, a: System, b: System, excluded: set<Token>, passes: nat, t: Tally, one: Tried)
    requires TallyOk(w, f, start, a, excluded, passes, t) && !one.Tried?
    requires TriedSo(a, b, w, f, t.attempted, RoundAt(passes, |t.ids|), passes, one)
    ensures Promised(start, Selecting(b, NoChoice(t, one), a), w, f, excluded, passes)
  {
    TallyWaits(w, f, start, a, b, excluded, passes, t);
    assert TallyOk(w, f, start, b, excluded, passes, t);
    NoneIsCaused(b.pool, f, excluded, passes, t, one);
    EndIsPromised(w, f, start, b, a, excluded, passes, t, NoChoice(t, one).result);
  }

  lemma NoneIsCaused(p: Pool, f: Filters, excluded: set<Token>, passes: nat, t: Tally, one: Tried)
    requires !one.Tried? && |t.tokens| == |t.names| == |t.ids| && t.attempted == excluded + Elements(t.tokens) + Elements(t.names)
    requires t.ids == [] ==> !t.sawExhausted
    requires one.NoCandidate? ==> one.error == NoReadyError(p, f, t.attempted) && ReadyTokens(p, f, t.attempted) == []
    requires one.Busy? && passes > 0 ==> AllAreBusy(p, f, t.attempted)
    ensures GivesUpSo(p, f, passes, NoChoice(t, one)) && FirstCause(p, f, excluded, NoChoice(t, one))
    ensures NoChoice(t, one).result.StillWaiting? || (NoChoice(t, one).result.NoneLeft? && t.ids == []) || NoChoice(t, one).result == Exit(t)
  {
    if t.ids != [] {
      assert t.tokens[0] in t.attempted;
    }
  }

  /** The end of the loop with a usable account. */
  lemma ChoiceIsPromised(w: World, f: Filters, start: System, a: System, b: System, excluded: set<Token>, passes: nat, t: Tally, one: Tried)
    requires TallyOk(w, f, start, a, excluded, passes, t) && |t.ids| < MAX_ATTEMPTS
    requires one.Tried? && VerdictOf(f, w.info(one.asked)).Usable?
    requires TriedSo(a, b, w, f, t.attempted, RoundAt(passes, |t.ids|), passes, one)
    ensures Promised(start, Selecting(b, Choice(t, one), Waiting(w, RoundAt(passes, |t.ids|), a, f, t.attempted, passes).state), w, f, excluded, passes)
  {
    ChoiceIsSelected(w, f, start, a, b, excluded, passes, t, one);
    ChoiceIsDelivered(w, f, a, b, passes, t, one);
  }

  lemma ChoiceIsSelected(w: World, f: Filters, start: System, a: System, b: System, excluded: set<Token>, passes: nat, t: Tally, one: Tried)
    requires TallyOk(w, f, start, a, excluded, passes, t) && |t.ids| < MAX_ATTEMPTS
    requires one.Tried? && VerdictOf(f, w.info(one.asked)).Usable?
    requires TriedSo(a, b, w, f, t.attempted, RoundAt(passes, |t.ids|), passes, one)
    ensures SelectedSo(start, b, w, f, excluded, passes, Choice(t, one))
  {
    GainedTransitive(start, a, b, w.me, {one.id});
    AttemptsAppend(w, start, a, b, excluded, passes, t.ids, t.tokens, t.asked, {one.id}, one.id, one.token, one.asked);
    ChoiceAnswered(w, f, t, one);
    ChoiceRemembers(t, one, excluded);
  }

  lemma ChoiceRemembers(t: Tally, one: Tried, excluded: set<Token>)
    requires |t.tokens| == |t.names| == |t.ids| && t.attempted == excluded + Elements(t.tokens) + Elements(t.names) && one.Tried?
    ensures Remembers(excluded, Choice(t, one))
  {
    assert (t.names + [one.named])[..|t.names|] == t.names;
    assert (t.tokens + [one.token])[..|t.tokens|] == t.tokens;
  }

  lemma ChoiceAnswered(w: World, f: Filters, t: Tally, one: Tried)
    requires Flags(w, f, t.asked, t.sawExhausted, t.sawUnavailable)
    requires one.Tried? && VerdictOf(f, w.info(one.asked)).Usable?
    ensures AnsweredSo(w, f, Choice(t, one))
  {
  }

  lemma ChoiceIsDelivered(w: World, f: Filters, a: System, b: System, passes: nat, t: Tally, one: Tried)
    requires |t.tokens| == |t.ids| && one.Tried? && VerdictOf(f, w.info(one.asked)).Usable?
    requires TriedSo(a, b, w, f, t.attempted, RoundAt(passes, |t.ids|), passes, one)
    ensures DeliverySo(Waiting(w, RoundAt(passes, |t.ids|), a, f, t.attempted, passes).state, b, w, f, passes, Choice(t, one))
  {
    assert Choice(t, one).ids[|t.ids|] == one.id && Choice(t, one).tokens[|t.ids|] == one.token;
  }

  // ---- Firefly accounts ----

  /** What a selection without remote checks returns. */
  function Unchecked(got: Acquired, id: nat, excluded: set<Token>): Selection {
    match got
    case NoReady(error) => Selection(NoneLeft(error), [], [], [], [], excluded)
    case AllBusy => Selection(StillWaiting, [], [], [], [], excluded)
    case Got(token) => Selection(Chosen(token), [id], [token], [token], [], excluded)
  }

  /** What a selection without remote checks promises. */
  ghost predicate UncheckedSo(a: System, b: System, w: World, f: Filters, excluded: set<Token>, passes: nat, x: Selection) {
    && Balanced(a, b, w.me, x) && x.asked == [] && x.attempted == excluded
    && (x.result.Chosen? ==> x.ids == [LastId(b)] && Delivered(b, w.me, f, LastId(b), x.result.token))
    && (x.result.NoneLeft? ==> x.ids == [] && x.result.error == NoReadyError(b.pool, f, excluded))
    && GivesUpSo(b.pool, f, passes, x)
  }

  lemma AcquiredIsUnchecked(a: System, b: System, w: World, f: Filters, excluded: set<Token>, passes: nat, got: Acquired)
    requires Gained(a, b, w.me, NewestIf(b, got.Got?))
    requires passes > 0 ==> WaitedSo(a, b, w.me, f, excluded, got)
    requires passes == 0 ==> got.AllBusy?
    ensures UncheckedSo(a, b, w, f, excluded, passes, Unchecked(got, LastId(b), excluded))
  {
    if got.Got? {
      TakenIsDelivered(b, w.me, f, excluded, got.token);
      var x := Unchecked(got, LastId(b), excluded);
      assert x.ids[|x.ids| - 1] == LastId(b);
    }
  }

  lemma TakenIsDelivered(s: System, me: nat, f: Filters, excluded: set<Token>, t: Token)
    requires Took(s, me, f, excluded, t)
    ensures Delivered(s, me, f, LastId(s), t) && IsName(s.leases[LastId(s)], t)
    ensures NewestIf(s, true) == {LastId(s)}
  {
  }

  // ---- The whole selection ----

  /** `get_available_access_token` as a function of the state it starts in and of the world. Firefly accounts
      are not checked remotely: the first free slot is returned. */
  ghost function Selects(w: World, s: System, f: Filters, excluded: set<Token>, passes: nat): Selecting {
    if f.source == FIREFLY then
      var Wait(b, got) := Waiting(w, 0, s, f, excluded, passes);
      Selecting(b, Unchecked(got, LastId(b), excluded), b)
    else Rounds(w, s, f, passes, NoTally(excluded))
  }

  /** What every selection promises, over every world. */
  lemma SelectionPromises(w: World, s: System, f: Filters, excluded: set<Token>, passes: nat)
    requires SlotInv(s) && Fair(w)
    ensures var r := Selects(w, s, f, excluded, passes);
            if f.source == FIREFLY then UncheckedSo(s, r.state, w, f, excluded, passes, r.selection)
            else Promised(s, r, w, f, excluded, passes)
  {
    if f.source == FIREFLY {
      var Wait(b, got) := Waiting(w, 0, s, f, excluded, passes);
      WaitingGains(w, 0, s, f, excluded, passes);
      if passes > 0 {
        WaitingIsWaited(w, 0, s, f, excluded, passes);
      }
      AcquiredIsUnchecked(s, b, w, f, excluded, passes, got);
    } else {
      StartsTally(w, f, s, excluded, passes);
      RoundsPromise(w, s, s, f, excluded, passes, NoTally(excluded));
    }
  }

  /** The query with which the check of the last attempt begins. */
  function LastQuery(passes: nat, x: Selection): nat
    requires x.ids != []
  {
    FirstQuery(RoundAt(passes, |x.ids| - 1), passes)
  }

  /** When the returned token is delivered: exactly when the check of the last attempt does not find the
      refresh credential dead while invalid accounts are removed. What a caller can read off before the call:
      without the removal, or without a dead answer at the requests of that check, it is delivered; with the
      removal and nothing but dead answers it is not, as soon as the opportunistic refresh is due for an account
      with a refresh token; and if the first query does not find the token rejected, these are the only cases. */
  ghost predicate DeliveredWhen(taken: System, b: System, w: World, f: Filters, passes: nat, x: Selection) {
    x.result.Chosen? && x.ids != [] && |x.tokens| == |x.ids| ==>
      var id, token, k := x.ids[|x.ids| - 1], x.tokens[|x.ids| - 1], LastQuery(passes, x);
      var kept := Delivered(b, w.me, f, id, x.result.token);
      && (kept <==> !(w.removeInvalid && FindsDead(w, k, taken, id, token)))
      && (!w.removeInvalid || NeverDead(w, k) ==> kept)
      && (w.removeInvalid && AlwaysDead(w, k) && w.due(k) && Renewable(taken, id) ==> !kept)
      && (AlwaysDead(w, k) && !w.info(k).InvalidToken? ==> (kept <==> !(w.removeInvalid && w.due(k) && Renewable(taken, id))))
  }

  lemma DeliveredIff(w: World, s: System, f: Filters, excluded: set<Token>, passes: nat)
    requires SlotInv(s) && Fair(w) && f.source != FIREFLY
    ensures var r := Selects(w, s, f, excluded, passes);
            && DeliveredWhen(r.taken, r.state, w, f, passes, r.selection)
            && (r.selection.result.Chosen? ==> r.selection.ids != [] && |r.selection.tokens| == |r.selection.ids|)
  {
    SelectionPromises(w, s, f, excluded, passes);
    var r := Selects(w, s, f, excluded, passes);
    DeliveryForeseen(r.taken, r.state, w, f, passes, r.selection);
  }

  lemma DeliveryForeseen(taken: System, b: System, w: World, f: Filters, passes: nat, x: Selection)
    requires DeliverySo(taken, b, w, f, passes, x)
    ensures DeliveredWhen(taken, b, w, f, passes, x)
  {
    if x.result.Chosen? && x.ids != [] && |x.tokens| == |x.ids| {
      var id, token := x.ids[|x.ids| - 1], x.tokens[|x.ids| - 1];
      TookIsNamed(taken, w.me, f, x.attempted, token);
      FindsDeadForeseen(w, LastQuery(passes, x), taken, id, token);
    }
  }

  /** The account of a lease is gone: none of its names has a slot. */
  lemma GoneHasNoSlot(s: System, me: nat, id: nat, name: Token)
    requires SlotInv(s) && HasName(s, me, id, name) && !Live(s, id)
    ensures ResolveIn(s.pool, name) !in s.pool.accounts && Inflight(s.pool, ResolveIn(s.pool, name)) == 0
  {
    NameResolves(s, me, id, name);
  }

  /** A choice that is not delivered: the caller holds a lease, but the returned token stands for no account
      and has no slot. */
  lemma UndeliveredHasNoSlot(w: World, s: System, f: Filters, excluded: set<Token>, passes: nat, r: Selecting)
    requires SlotInv(s) && Fair(w) && f.source != FIREFLY && r == Selects(w, s, f, excluded, passes)
    requires r.selection.result.Chosen? && r.selection.ids != []
    requires !Delivered(r.state, w.me, f, r.selection.ids[|r.selection.ids| - 1], r.selection.result.token)
    ensures Holds(r.state, w.me, r.selection.ids[|r.selection.ids| - 1])
    ensures ResolveIn(r.state.pool, r.selection.result.token) !in r.state.pool.accounts
    ensures Inflight(r.state.pool, ResolveIn(r.state.pool, r.selection.result.token)) == 0
  {
    SelectionPromises(w, s, f, excluded, passes);
    var id := r.selection.ids[|r.selection.ids| - 1];
    assert id in Outstanding(r.state, w.me);
    GoneHasNoSlot(r.state, w.me, id, r.selection.result.token);
  }

  /** A world without other callers, in which every refresh is due and answered by the end of the credential,
      every query by the record `a`, and invalid accounts are removed. */
  function DyingWorld(me: nat, a: Account): World {
    World(me, (k: nat, s: System, id: nat) => [], (k: nat) => true, (k: nat, s: System) => Dead, (k: nat) => Fields(a), true, false)
  }

  lemma DyingWorldIsFair(me: nat, a: Account)
    ensures Fair(DyingWorld(me, a))
  {
  }

  /** In that world the first attempt is the choice. */
  lemma DyingWorldChooses(s: System, me: nat, a: Account, f: Filters, excluded: set<Token>, passes: nat)
    requires SlotInv(s) && f.source != FIREFLY && passes > 0 && AcquireResult(s.pool, f, excluded).Got?
    requires IsAvailable(a) && Matches(a, f)
    ensures var r := Selects(DyingWorld(me, a), s, f, excluded, passes);
            && r.selection.result.Chosen? && r.taken == Step(s, Acquiring(me, f, excluded))
            && r.selection.ids == [LastId(r.taken)] && r.selection.tokens == [AcquireResult(s.pool, f, excluded).token]
  {
    var w := DyingWorld(me, a);
    DyingWorldIsFair(me, a);
    FirstSlotIsTaken(w, s, f, excluded, passes);
    FirstSlotIsJudged(w, s, f, excluded, passes);
    FirstChoice(w, s, f, excluded, passes);
  }

  lemma FirstSlotIsJudged(w: World, s: System, f: Filters, excluded: set<Token>, passes: nat)
    requires SlotInv(s) && Fair(w) && AcquireResult(s.pool, f, excluded).Got?
    requires Waiting(w, 0, s, f, excluded, passes) == Wait(Step(s, Acquiring(w.me, f, excluded)), AcquireResult(s.pool, f, excluded))
    ensures var r := Trying(w, 0, s, f, excluded, passes).1;
            && r.Tried? && r.id == LastId(Step(s, Acquiring(w.me, f, excluded))) && r.token == AcquireResult(s.pool, f, excluded).token
            && Decides(w, FirstQuery(0, passes), r.asked)
  {
    var n, t := Step(s, Acquiring(w.me, f, excluded)), AcquireResult(s.pool, f, excluded).token;
    TakenIsJudged(w, FirstQuery(0, passes), s, f, excluded);
    assert Trying(w, 0, s, f, excluded, passes) == Judging(w, FirstQuery(0, passes), n, f, LastId(n), t);
  }

  lemma TakenIsJudged(w: World, k: nat, s: System, f: Filters, excluded: set<Token>)
    requires SlotInv(s) && Fair(w) && AcquireResult(s.pool, f, excluded).Got?
    ensures var n, t := Step(s, Acquiring(w.me, f, excluded)), AcquireResult(s.pool, f, excluded).token;
            var r := Judging(w, k, n, f, LastId(n), t).1;
            r.Tried? && r.id == LastId(n) && r.token == t && Decides(w, k, r.asked)
  {
    var n, t := Step(s, Acquiring(w.me, f, excluded)), AcquireResult(s.pool, f, excluded).token;
    TakenSlot(s, w.me, f, excluded);
    TookIsNamed(n, w.me, f, excluded, t);
    JudgingIsJudged(w, k, n, f, LastId(n), t);
  }

  lemma FirstChoice(w: World, s: System, f: Filters, excluded: set<Token>, passes: nat)
    requires var one := Trying(w, 0, s, f, excluded, passes).1; one.Tried? && VerdictOf(f, w.info(one.asked)).Usable?
    ensures var (b, one) := Trying(w, 0, s, f, excluded, passes);
            Rounds(w, s, f, passes, NoTally(excluded)) ==
            Selecting(b, Choice(NoTally(excluded), one), Waiting(w, 0, s, f, excluded, passes).state)
  {
    assert RoundAt(passes, 0) == 0;
  }

  /** How the exception comes about: in every state in which a slot is free on an account with a refresh token,
      the selection takes it, has the account deleted, and returns its token all the same. */
  lemma DeadRefreshLosesTheSlot(s: System, me: nat, a: Account, f: Filters, excluded: set<Token>, passes: nat)
    requires SlotInv(s) && f.source != FIREFLY && passes > 0 && AcquireResult(s.pool, f, excluded).Got?
    requires IsAvailable(a) && Matches(a, f)
    requires Renewable(Step(s, Acquiring(me, f, excluded)), |s.leases|)
    ensures var r := Selects(DyingWorld(me, a), s, f, excluded, passes);
            && r.selection.result.Chosen?
            && ResolveIn(r.state.pool, r.selection.result.token) !in r.state.pool.accounts
            && Inflight(r.state.pool, ResolveIn(r.state.pool, r.selection.result.token)) == 0
  {
    var w := DyingWorld(me, a);
    var r := Selects(w, s, f, excluded, passes);
    DyingWorldIsFair(me, a);
    DyingWorldChooses(s, me, a, f, excluded, passes);
    DeliveredIff(w, s, f, excluded, passes);
    TakenSlot(s, me, f, excluded);
    UndeliveredHasNoSlot(w, s, f, excluded, passes, r);
  }

  /** Without other callers a free slot is taken in the first pass. */
  lemma FirstSlotIsTaken(w: World, s: System, f: Filters, excluded: set<Token>, passes: nat)
    requires passes > 0 && w.others(0, s, |s.leases|) == [] && AcquireResult(s.pool, f, excluded).Got?
    ensures Waiting(w, 0, s, f, excluded, passes) == Wait(Step(s, Acquiring(w.me, f, excluded)), AcquireResult(s.pool, f, excluded))
  {
    assert Interfered(w, 0, s, |s.leases|) == s;
  }

  /** The reported cause before any attempt: exhausted quota if and only if some account passes the
      filters and every account that passes them is limited. */
  lemma NoReadyErrorMeaning(p: Pool, f: Filters, excluded: set<Token>)
    requires PoolOk(p)
    ensures NoReadyError(p, f, excluded).QuotaExhausted? <==>
            && (exists t :: t in p.accounts && t !in excluded && Matches(p.accounts[t], f))
            && (forall t :: t in p.accounts && t !in excluded && Matches(p.accounts[t], f) ==> p.accounts[t].status.Limited?)
  {
    var matched := Filter(p.order, MatchTest(p, f, excluded));
    FilterFull(matched, LimitedTest(p));
    assert forall t :: t in p.accounts <==> t in p.order;
    assert forall t :: t in matched <==> t in p.accounts && t !in excluded && Matches(p.accounts[t], f);
    assert matched != [] <==> exists t :: t in matched by {
      if matched != [] {
        assert matched[0] in matched;
      }
    }
  }
}
