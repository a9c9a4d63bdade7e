/** Which account a slot is taken on: acquisitions go round the free accounts, and no exhausted or disabled
    account is ever handed out. */
module SlotFairness {
  import opened Sequences
  import opened AliasGraph
  import opened AccountPool
  import opened SlotConservation

  /** What an account must be like to be handed out, field by field. */
  predicate Usable(a: Account) {
    && !a.status.Disabled? && !a.status.Limited? && !a.status.Abnormal? && !a.status.Retired?
    && (a.status.Normal? || a.quota > 0 || (if a.source == FIREFLY then a.status.Active? else a.quotaUnknown))
  }

  /** What the caller asked for: the plan, one of the plans, and the source; without a source any but Firefly. */
  predicate Wanted(a: Account, f: Filters) {
    && (f.plan != "" ==> a.plan == f.plan)
    && (f.plans != {} ==> a.plan in f.plans && a.plan != "")
    && (f.source != "" ==> a.source == f.source) && (f.source == "" ==> a.source != FIREFLY)
  }

  /** The accounts that have a slot to give. */
  ghost function FreeAccounts(p: Pool, f: Filters, excluded: set<Token>): set<Token> {
    set t | t in p.accounts && t !in excluded && Usable(p.accounts[t]) && Wanted(p.accounts[t], f) && Inflight(p, t) < p.limit
  }

  lemma CandidateMeans(p: Pool, f: Filters, excluded: set<Token>, t: Token)
    ensures IsCandidate(p, f, excluded, t) <==>
            t in p.accounts && t !in excluded && Usable(p.accounts[t]) && Wanted(p.accounts[t], f)
  {
  }

  lemma AvailableAreFree(p: Pool, f: Filters, excluded: set<Token>)
    requires PoolOk(p)
    ensures Elements(AvailableTokens(p, f, excluded)) == FreeAccounts(p, f, excluded)
  {
    forall t ensures t in AvailableTokens(p, f, excluded) <==> t in FreeAccounts(p, f, excluded) {
      CandidateMeans(p, f, excluded, t);
      assert t in p.order <==> t in p.accounts;
      assert t in ReadyTokens(p, f, excluded) <==> t in p.order && IsCandidate(p, f, excluded, t);
    }
  }

  lemma AvailableOnce(p: Pool, f: Filters, excluded: set<Token>)
    requires PoolOk(p)
    ensures NoDuplicates(AvailableTokens(p, f, excluded))
  {
    FilterNoDuplicates(p.order, ReadyTest(p, f, excluded));
    FilterNoDuplicates(ReadyTokens(p, f, excluded), FreeTest(p));
  }

  lemma {:induction false} FilterAgrees<T(!new)>(s: seq<T>, a: T -> bool, b: T -> bool)
    requires forall x :: x in s ==> a(x) == b(x)
    ensures Filter(s, a) == Filter(s, b)
  {
    if s != [] {
      FilterAgrees(s[1..], a, b);
    }
  }

  /** The acquisitions of some callers, one after the other. */
  function Acquisitions(owners: seq<nat>, f: Filters, excluded: set<Token>): (r: seq<Event>)
    ensures |r| == |owners| && forall i :: 0 <= i < |r| ==> r[i] == Acquiring(owners[i], f, excluded)
  {
    seq(|owners|, i requires 0 <= i < |owners| => Acquiring(owners[i], f, excluded))
  }

  /** The account whose turn it is when the cursor stands at `k`. */
  function AtCursor(free: seq<Token>, k: nat): (t: Token)
    requires free != []
    ensures t in free
  {
    free[k % |free|]
  }

  /** The accounts whose turn it is while the cursor moves on from `x`. */
  ghost predicate AreTurns(free: seq<Token>, x: nat, tokens: seq<Token>)
    requires free != []
  {
    forall i :: 0 <= i < |tokens| ==> tokens[i] == AtCursor(free, x + i)
  }

  function NewLeases(owners: seq<nat>, tokens: seq<Token>): (r: seq<Lease>)
    requires |owners| == |tokens|
    ensures |r| == |owners| && forall i :: 0 <= i < |r| ==> r[i] == NewLease(owners[i], tokens[i])
  {
    seq(|owners|, i requires 0 <= i < |owners| => NewLease(owners[i], tokens[i]))
  }

  /** What acquisitions in a row leave: a slot on each of the tokens, the cursor moved on, and no other change. */
  ghost predicate TakenInTurn(s: System, after: System, tokens: seq<Token>, owners: seq<nat>) {
    && |tokens| == |owners|
    && after.pool == s.pool.(index := s.pool.index + |owners|, inflight := after.pool.inflight)
    && after.leases == s.leases + NewLeases(owners, tokens)
    && (forall t :: Inflight(after.pool, t) == Inflight(s.pool, t) + if t in tokens then 1 else 0)
  }

  lemma RemaindersDiffer(n: nat, x: nat, y: nat)
    requires x < y < x + n
    ensures x % n != y % n
  {
    var d := y / n - x / n;
    assert x == n * (x / n) + x % n && y == n * (y / n) + y % n;
    assert n * (y / n) - n * (x / n) == n * d;
    if d >= 1 {
      assert n * d >= n;
    }
  }

  lemma TurnsDiffer(free: seq<Token>, x: nat, y: nat)
    requires free != [] && NoDuplicates(free) && x < y < x + |free|
    ensures AtCursor(free, x) != AtCursor(free, y)
  {
    RemaindersDiffer(|free|, x, y);
  }

  /** Among as many turns as there are accounts nobody has two. */
  lemma NextTurn(free: seq<Token>, x: nat, tokens: seq<Token>, k: nat)
    requires free != [] && NoDuplicates(free) && |tokens| < |free| && k == x + |tokens|
    requires AreTurns(free, x, tokens) && NoDuplicates(tokens)
    ensures AtCursor(free, k) !in tokens
    ensures AreTurns(free, x, tokens + [AtCursor(free, k)]) && NoDuplicates(tokens + [AtCursor(free, k)])
  {
    forall i | 0 <= i < |tokens| ensures tokens[i] != AtCursor(free, k) {
      TurnsDiffer(free, x + i, k);
    }
  }

  lemma SameFree(s: System, after: System, tokens: seq<Token>, owners: seq<nat>, f: Filters, excluded: set<Token>)
    requires TakenInTurn(s, after, tokens, owners)
    requires forall t :: t in AvailableTokens(s.pool, f, excluded) ==> Inflight(s.pool, t) + 1 < s.pool.limit
    ensures AvailableTokens(after.pool, f, excluded) == AvailableTokens(s.pool, f, excluded)
    ensures ReadyTokens(after.pool, f, excluded) == ReadyTokens(s.pool, f, excluded)
  {
    FilterAgrees(s.pool.order, ReadyTest(s.pool, f, excluded), ReadyTest(after.pool, f, excluded));
    FilterAgrees(ReadyTokens(s.pool, f, excluded), FreeTest(s.pool), FreeTest(after.pool));
  }

  /** One more acquisition, by the next account round. */
  lemma OneMoreTurn(s: System, b: System, tokens: seq<Token>, owners: seq<nat>, owner: nat, f: Filters, excluded: set<Token>)
    requires TakenInTurn(s, b, tokens, owners) && AvailableTokens(b.pool, f, excluded) != []
    requires AtCursor(AvailableTokens(b.pool, f, excluded), b.pool.index) !in tokens
    ensures TakenInTurn(s, Step(b, Acquiring(owner, f, excluded)),
                        tokens + [AtCursor(AvailableTokens(b.pool, f, excluded), b.pool.index)], owners + [owner])
  {
    var t := AtCursor(AvailableTokens(b.pool, f, excluded), b.pool.index);
    NextIsTaken(b, owner, f, excluded);
    assert NewLeases(owners + [owner], tokens + [t]) == NewLeases(owners, tokens) + [NewLease(owner, t)];
  }

  lemma NextIsTaken(b: System, owner: nat, f: Filters, excluded: set<Token>)
    requires AvailableTokens(b.pool, f, excluded) != []
    ensures var t := AtCursor(AvailableTokens(b.pool, f, excluded), b.pool.index);
            Step(b, Acquiring(owner, f, excluded)) == System(Taken(b.pool, t), b.leases + [NewLease(owner, t)])
  {
    assert AvailableTokens(b.pool, f, excluded)[0] in ReadyTokens(b.pool, f, excluded);
  }

  lemma AcquisitionsExtend(s: System, init: seq<nat>, last: nat, f: Filters, excluded: set<Token>)
    ensures Run(s, Acquisitions(init + [last], f, excluded)) == Step(Run(s, Acquisitions(init, f, excluded)), Acquiring(last, f, excluded))
  {
    var es := Acquisitions(init + [last], f, excluded);
    assert es[..|es| - 1] == Acquisitions(init, f, excluded);
  }

  /** The slots taken so far, in turn and each on another account. */
  ghost predicate InTurn(s: System, after: System, free: seq<Token>, tokens: seq<Token>, owners: seq<nat>)
    requires free != []
  {
    TakenInTurn(s, after, tokens, owners) && AreTurns(free, s.pool.index, tokens) && NoDuplicates(tokens)
  }

  lemma OneMoreInTurn(s: System, b: System, free: seq<Token>, tokens: seq<Token>, owners: seq<nat>, owner: nat, f: Filters, excluded: set<Token>)
    requires PoolOk(s.pool) && free == AvailableTokens(s.pool, f, excluded) && |owners| < |free|
    requires forall t :: t in free ==> Inflight(s.pool, t) + 1 < s.pool.limit
    requires InTurn(s, b, free, tokens, owners)
    ensures InTurn(s, Step(b, Acquiring(owner, f, excluded)), free, tokens + [AtCursor(free, b.pool.index)], owners + [owner])
  {
    SameFree(s, b, tokens, owners, f, excluded);
    AvailableOnce(s.pool, f, excluded);
    NextTurn(free, s.pool.index, tokens, b.pool.index);
    OneMoreTurn(s, b, tokens, owners, owner, f, excluded);
  }

  lemma NothingTaken(s: System, free: seq<Token>, f: Filters, excluded: set<Token>)
    requires free != []
    ensures RunsInTurn(s, [], f, excluded, free, [])
  {
  }

  /** The free accounts, each with room for more than one further slot. */
  ghost predicate HasRoom(p: Pool, f: Filters, excluded: set<Token>, free: seq<Token>) {
    PoolOk(p) && free == AvailableTokens(p, f, excluded) && free != [] && forall t :: t in free ==> Inflight(p, t) + 1 < p.limit
  }

  /** The run of these acquisitions takes its slots in turn. */
  ghost predicate RunsInTurn(s: System, owners: seq<nat>, f: Filters, excluded: set<Token>, free: seq<Token>, tokens: seq<Token>) {
    free != [] && InTurn(s, Run(s, Acquisitions(owners, f, excluded)), free, tokens, owners)
  }

  lemma TurnAfter(s: System, init: seq<nat>, last: nat, f: Filters, excluded: set<Token>, free: seq<Token>, before: seq<Token>)
    returns (tokens: seq<Token>)
    requires HasRoom(s.pool, f, excluded, free) && |init| < |free| && RunsInTurn(s, init, f, excluded, free, before)
    ensures RunsInTurn(s, init + [last], f, excluded, free, tokens)
  {
    var b := Run(s, Acquisitions(init, f, excluded));
    AcquisitionsExtend(s, init, last, f, excluded);
    OneMoreInTurn(s, b, free, before, init, last, f, excluded);
    tokens := before + [AtCursor(free, b.pool.index)];
  }

  lemma {:induction false} AcquisitionsInTurn(s: System, owners: seq<nat>, f: Filters, excluded: set<Token>, free: seq<Token>)
    returns (tokens: seq<Token>)
    requires HasRoom(s.pool, f, excluded, free) && |owners| <= |free|
    ensures RunsInTurn(s, owners, f, excluded, free, tokens)
  {
    if owners == [] {
      tokens := [];
      NothingTaken(s, free, f, excluded);
    } else {
      var init, last := owners[..|owners| - 1], owners[|owners| - 1];
      assert init + [last] == owners;
      var before := AcquisitionsInTurn(s, init, f, excluded, free);
      tokens := TurnAfter(s, init, last, f, excluded, free, before);
    }
  }

  lemma {:induction false} DistinctCount(s: seq<Token>)
    requires NoDuplicates(s)
    ensures |Elements(s)| == |s|
  {
    if s != [] {
      var init, last := s[..|s| - 1], s[|s| - 1];
      DistinctCount(init);
      assert Elements(s) == Elements(init) + {last};
    }
  }

  lemma {:induction false} FullPart(a: set<Token>, b: set<Token>)
    requires a <= b && |a| == |b|
    ensures a == b
  {
    if a != {} {
      var t :| t in a;
      FullPart(a - {t}, b - {t});
    }
  }

  lemma AllTurns(free: seq<Token>, tokens: seq<Token>)
    requires NoDuplicates(tokens) && NoDuplicates(free) && Elements(tokens) <= Elements(free) && |tokens| == |free|
    ensures Elements(tokens) == Elements(free)
  {
    DistinctCount(tokens);
    DistinctCount(free);
    FullPart(Elements(tokens), Elements(free));
  }

  /** Acquisitions in a row, with nothing in between, while every free account stays below its limit: as many
      as there are free accounts, or fewer, stand on different accounts, all of them free; with as many as there
      are, every free account gets exactly one. */
  lemma RoundRobin(s: System, owners: seq<nat>, f: Filters, excluded: set<Token>) returns (tokens: seq<Token>)
    requires PoolOk(s.pool) && |owners| <= |FreeAccounts(s.pool, f, excluded)|
    requires forall t :: t in FreeAccounts(s.pool, f, excluded) ==> Inflight(s.pool, t) + 1 < s.pool.limit
    ensures |tokens| == |owners| && Run(s, Acquisitions(owners, f, excluded)).leases == s.leases + NewLeases(owners, tokens)
    ensures NoDuplicates(tokens) && Elements(tokens) <= FreeAccounts(s.pool, f, excluded)
    ensures |owners| == |FreeAccounts(s.pool, f, excluded)| ==> Elements(tokens) == FreeAccounts(s.pool, f, excluded)
  {
    var free := AvailableTokens(s.pool, f, excluded);
    AvailableAreFree(s.pool, f, excluded);
    AvailableOnce(s.pool, f, excluded);
    DistinctCount(free);
    if free == [] {
      tokens := [];
    } else {
      tokens := AcquisitionsInTurn(s, owners, f, excluded, free);
      assert forall t :: t in tokens ==> t in free;
      if |owners| == |free| {
        AllTurns(free, tokens);
      }
    }
  }

  /** A slot is only ever taken on an account that has one to give, and it is taken when there is one. */
  lemma TakenIsFree(s: System, owner: nat, f: Filters, excluded: set<Token>)
    requires PoolOk(s.pool)
    ensures var after := Step(s, Acquiring(owner, f, excluded));
            if FreeAccounts(s.pool, f, excluded) == {} then after == s
            else exists t :: t in FreeAccounts(s.pool, f, excluded) && after.leases == s.leases + [NewLease(owner, t)]
  {
    AvailableAreFree(s.pool, f, excluded);
    var available := AvailableTokens(s.pool, f, excluded);
    if available != [] {
      assert available[0] in Elements(available) && available[0] in ReadyTokens(s.pool, f, excluded);
      assert available[s.pool.index % |available|] in Elements(available);
    }
  }
}
