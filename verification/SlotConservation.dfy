/** Slot conservation: over every run of the lock regions, the in-flight counter of a live account
    is the number of outstanding leases whose token resolves to it, and a lease may be settled under
    any name its holder was given for it. */
module SlotConservation {
  import opened Sequences
  import opened AliasGraph
  import opened AccountPool

  /** A slot taken by one acquisition on `token`. Its owner learns further names for it when the
      account is rotated under its eyes, and settles it once, under any name it was given. */
  datatype Lease = Lease(owner: nat, token: Token, names: set<Token>, held: bool)

  predicate IsName(l: Lease, x: Token) {
    x == l.token || x in l.names
  }

  function NewLease(owner: nat, t: Token): Lease {
    Lease(owner, t, {t}, true)
  }

  datatype System = System(pool: Pool, leases: seq<Lease>)

  datatype Settlement = Plain | Marked(outcome: Outcome) | Exhausted(autoRemove: bool)

  /** The lock regions. `now` and `pick` resolve the nondeterminism of the clock and of set order. */
  datatype Event =
    | Acquiring(owner: nat, filters: Filters, excluded: set<Token>)
    | Naming(lease: nat, name: Token)
    | Settling(lease: nat, name: Token, how: Settlement)
    | Updating(name: Token, account: Account, autoRemove: bool)
    | Deleting(names: set<Token>)
    | Importing(token: Token, account: Account)
    | Reimporting(existing: Token, token: Token, account: Account)
    | Applying(name: Token, data: TokenData, expected: Expected)
    | Scheduling(name: Token, force: bool, now: int, pick: Token)
    | Starting(now: int)
    | Finishing(token: Token)

  function Settle(p: Pool, name: Token, how: Settlement): Pool {
    match how
    case Plain => ReleaseSlot(p, name)
    case Marked(outcome) => MarkResult(p, name, outcome)
    case Exhausted(autoRemove) => ReportExhausted(p, name, autoRemove)
  }

  function StepPool(p: Pool, e: Event): Pool {
    match e
    case Acquiring(_, f, excluded) => Acquire(p, f, excluded)
    case Naming(_, _) => p
    case Settling(_, name, how) => Settle(p, name, how)
    case Updating(name, a, autoRemove) => UpdateAccount(p, name, a, autoRemove)
    case Deleting(names) => Delete(p, names)
    case Importing(t, a) => Import(p, t, a)
    case Reimporting(existing, t, a) => Reimport(p, existing, t, a)
    case Applying(name, data, expected) => ApplyTokens(p, name, data, expected)
    case Scheduling(name, force, now, pick) => Schedule(p, name, force, now, pick)
    case Starting(now) => Start(p, now)
    case Finishing(t) => Finish(p, t)
  }

  function StepLeases(s: System, e: Event): seq<Lease> {
    match e
    case Acquiring(owner, f, excluded) =>
      var r := AcquireResult(s.pool, f, excluded);
      if r.Got? then s.leases + [NewLease(owner, r.token)] else s.leases
    case Naming(id, name) =>
      if id < |s.leases| then s.leases[id := s.leases[id].(names := s.leases[id].names + {name})] else s.leases
    case Settling(id, _, _) => if id < |s.leases| then s.leases[id := s.leases[id].(held := false)] else s.leases
    case _ => s.leases
  }

  function Step(s: System, e: Event): System {
    System(StepPool(s.pool, e), StepLeases(s, e))
  }

  /** The two names stand for the same place, or both for no account. */
  ghost predicate Agreed(g: Graph, a: Token, b: Token) {
    Resolve(g, a) == Resolve(g, b) || (Resolve(g, a) !in g.live && Resolve(g, b) !in g.live)
  }

  /** What the callers of the regions guarantee: a lease is settled once, under a name its holder was
      given; a name is given while it stands for the account of the lease; imports use real tokens; a
      Firefly identity is re-imported from the live token that carries it to one that is not in the pool;
      and `pick` is an element of the set. */
  ghost predicate Enabled(s: System, e: Event) {
    match e
    case Settling(id, name, _) => id < |s.leases| && s.leases[id].held && IsName(s.leases[id], name)
    case Naming(id, name) => id < |s.leases| && s.leases[id].held && Agreed(Aliases(s.pool), s.leases[id].token, name)
    case Importing(t, _) => t != ""
    case Reimporting(existing, t, _) => t != "" && existing in s.pool.accounts && t !in s.pool.accounts
    case Scheduling(name, _, _, pick) =>
      var active := ActiveFor(s.pool, ResolveIn(s.pool, name));
      active != {} ==> pick in active
    case _ => true
  }

  // ---- Counting ----

  ghost function CountAt(g: Graph, leases: seq<Lease>, u: Token): nat {
    if leases == [] then 0
    else
      var last := leases[|leases| - 1];
      CountAt(g, leases[..|leases| - 1], u) + if last.held && Resolve(g, last.token) == u then 1 else 0
  }

  lemma {:induction false} CountSame(g: Graph, h: Graph, leases: seq<Lease>, u: Token, v: Token)
    requires forall l :: l in leases && l.held ==> (Resolve(h, l.token) == v <==> Resolve(g, l.token) == u)
    ensures CountAt(h, leases, v) == CountAt(g, leases, u)
  {
    if leases != [] {
      CountSame(g, h, leases[..|leases| - 1], u, v);
      assert leases[|leases| - 1] in leases;
    }
  }

  lemma {:induction false} CountMore(g: Graph, h: Graph, leases: seq<Lease>, u: Token, v: Token, more: Lease)
    requires forall l :: l in leases && l.held && Resolve(g, l.token) == u ==> Resolve(h, l.token) == v
    requires more in leases ==> more.held && Resolve(h, more.token) == v && Resolve(g, more.token) != u
    ensures CountAt(h, leases, v) >= CountAt(g, leases, u)
    ensures more in leases ==> CountAt(h, leases, v) > CountAt(g, leases, u)
  {
    if leases != [] {
      var init, last := leases[..|leases| - 1], leases[|leases| - 1];
      CountMore(g, h, init, u, v, more);
      assert last in leases && leases == init + [last];
    }
  }

  lemma {:induction false} CountSettled(g: Graph, leases: seq<Lease>, id: nat, u: Token)
    requires id < |leases| && leases[id].held
    ensures CountAt(g, leases[id := leases[id].(held := false)], u) ==
            CountAt(g, leases, u) - if Resolve(g, leases[id].token) == u then 1 else 0
    ensures Resolve(g, leases[id].token) == u ==> CountAt(g, leases, u) > 0
  {
    var n := |leases| - 1;
    var after := leases[id := leases[id].(held := false)];
    if id == n {
      assert after[..n] == leases[..n];
    } else {
      CountSettled(g, leases[..n], id, u);
      assert after[..n] == leases[..n][id := leases[id].(held := false)];
    }
  }

  lemma {:induction false} CountNone(g: Graph, leases: seq<Lease>, u: Token)
    requires CountAt(g, leases, u) == 0
    ensures forall l :: l in leases && l.held ==> Resolve(g, l.token) != u
  {
    if leases != [] {
      CountNone(g, leases[..|leases| - 1], u);
      assert leases == leases[..|leases| - 1] + [leases[|leases| - 1]];
    }
  }

  // ---- The invariant ----

  ghost predicate PoolOk(p: Pool) {
    && p.limit >= 1
    && NoDeadCycle(Aliases(p))
    && NoDuplicates(p.order) && Elements(p.order) == p.accounts.Keys
    && "" !in p.accounts
    && (forall t :: t in p.accounts ==> p.accounts[t].accessToken == t)
    && (forall t :: t in p.aliases ==> t != "" && p.aliases[t] != "")
  }

  ghost predicate CountersOk(p: Pool, leases: seq<Lease>) {
    CountsOk(Aliases(p), p.inflight, p.limit, leases)
  }

  function Counter(inflight: map<Token, nat>, t: Token): nat {
    if t in inflight then inflight[t] else 0
  }

  ghost predicate CountsOk(g: Graph, inflight: map<Token, nat>, limit: nat, leases: seq<Lease>) {
    && inflight.Keys <= g.live
    && (forall t :: t in inflight ==> 1 <= inflight[t] <= limit)
    && (forall t :: t in g.live ==> Counter(inflight, t) == CountAt(g, leases, t))
  }

  /** Every name of an outstanding lease still stands for its account, or that account is gone and no
      name of the lease stands for another one. */
  ghost predicate NamesOk(g: Graph, leases: seq<Lease>) {
    forall l, x :: l in leases && l.held && IsName(l, x) ==> Agreed(g, l.token, x)
  }

  ghost predicate SlotsOk(p: Pool, leases: seq<Lease>) {
    CountersOk(p, leases) && NamesOk(Aliases(p), leases)
  }

  ghost predicate SlotInv(s: System) {
    PoolOk(s.pool) && SlotsOk(s.pool, s.leases)
  }

  /** No name of an outstanding lease passes through `t` on its way. */
  ghost predicate NoLeaseVisits(s: System, t: Token) {
    NoneVisits(Aliases(s.pool), s.leases, t)
  }

  ghost predicate NoneVisits(g: Graph, leases: seq<Lease>, t: Token) {
    forall l, x :: l in leases && l.held && IsName(l, x) ==> !Visits(g, x, t)
  }

  /** Every name of an outstanding lease that passes through `n` belongs to the account `t`. */
  ghost predicate LeasesThrough(s: System, n: Token, t: Token) {
    AllThrough(Aliases(s.pool), s.leases, n, t)
  }

  ghost predicate AllThrough(g: Graph, leases: seq<Lease>, n: Token, t: Token) {
    forall l, x :: l in leases && l.held && IsName(l, x) && Visits(g, x, n) ==> Resolve(g, x) == t
  }

  /** The rotation an event performs, if it performs one. */
  predicate Rotates(p: Pool, e: Event) {
    e.Applying? && ApplyResult(p, e.name, e.data, e.expected).Installed? &&
    ApplyResult(p, e.name, e.data, e.expected).token != ResolveIn(p, e.name)
  }

  function RotatedTo(p: Pool, e: Event): Token
    requires Rotates(p, e)
  {
    ApplyResult(p, e.name, e.data, e.expected).token
  }

  /** The condition under which an event keeps the slots: an imported token is no name of an outstanding
      lease, a token rotated to is none of another account's, and a Firefly identity is re-imported
      only while it has no slot in use. */
  ghost predicate SlotSafe(s: System, e: Event) {
    match e
    case Importing(t, _) => t in s.pool.accounts || NoLeaseVisits(s, t)
    case Reimporting(existing, t, _) => existing !in s.pool.inflight && NoLeaseVisits(s, t)
    case Applying(name, _, _) =>
      Rotates(s.pool, e) ==> LeasesThrough(s, RotatedTo(s.pool, e), ResolveIn(s.pool, name))
    case _ => true
  }

  // ---- Well-formedness of the pool over every step ----

  lemma OrderAfterPut(p: Pool, t: Token, a: Account)
    requires NoDuplicates(p.order) && Elements(p.order) == p.accounts.Keys
    ensures NoDuplicates(PutAccount(p, t, a).order)
    ensures Elements(PutAccount(p, t, a).order) == PutAccount(p, t, a).accounts.Keys
  {
    if t !in p.accounts {
      assert t !in p.order;
    }
  }

  lemma OrderAfterRemoval(p: Pool, gone: set<Token>)
    requires NoDuplicates(p.order) && Elements(p.order) == p.accounts.Keys
    ensures NoDuplicates(RemoveAll(p, gone).order)
    ensures Elements(RemoveAll(p, gone).order) == RemoveAll(p, gone).accounts.Keys
  {
    FilterNoDuplicates(p.order, Outside(gone));
  }

  lemma OrderAfterPop(p: Pool, t: Token)
    requires NoDuplicates(p.order) && Elements(p.order) == p.accounts.Keys
    ensures NoDuplicates(PopAccount(p, t).order)
    ensures Elements(PopAccount(p, t).order) == PopAccount(p, t).accounts.Keys
  {
    FilterNoDuplicates(p.order, Outside({t}));
  }

  lemma ResolvedIsTerminal(p: Pool, name: Token)
    requires PoolOk(p)
    ensures !Hops(Aliases(p), ResolveIn(p, name))
    ensures ResolveIn(p, ResolveIn(p, name)) == ResolveIn(p, name)
  {
    var _ := ResolveWalk(Aliases(p), name);
  }

  lemma LiveResolvesToItself(p: Pool, t: Token)
    requires t in p.accounts
    ensures ResolveIn(p, t) == t
  {
    ResolveTerminal(Aliases(p), t);
  }

  /** Rewriting the record of an existing account changes no structure. */
  lemma PutKeepsPoolOk(p: Pool, t: Token, a: Account)
    requires PoolOk(p) && t in p.accounts && a.accessToken == t
    ensures PoolOk(PutAccount(p, t, a)) && Aliases(PutAccount(p, t, a)) == Aliases(p)
  {
    assert PutAccount(p, t, a).accounts.Keys == p.accounts.Keys;
  }

  lemma PutExisting(s: System, t: Token, a: Account)
    requires SlotInv(s) && t in s.pool.accounts && a.accessToken == t
    ensures SlotInv(s.(pool := PutAccount(s.pool, t, a)))
  {
    PutKeepsPoolOk(s.pool, t, a);
  }

  // ---- Names over changes of the alias graph ----

  lemma RemovalKeepsNames(g: Graph, gone: set<Token>, leases: seq<Lease>)
    requires NoDeadCycle(g) && (forall x :: x in gone ==> !Hops(g, x)) && NamesOk(g, leases)
    ensures NamesOk(Forgotten(g, gone), leases)
  {
    forall l, x | l in leases && l.held && IsName(l, x) ensures Agreed(Forgotten(g, gone), l.token, x) {
      DeletionRedirects(g, gone, l.token);
      DeletionRedirects(g, gone, x);
    }
  }

  lemma ImportKeepsNames(g: Graph, t: Token, leases: seq<Lease>)
    requires NoDeadCycle(g) && NamesOk(g, leases) && NoneVisits(g, leases, t)
    ensures NamesOk(Imported(g, t), leases)
  {
    forall l, x | l in leases && l.held && IsName(l, x) ensures Agreed(Imported(g, t), l.token, x) {
      assert IsName(l, l.token);
      ImportKeepsAgreed(g, t, l.token, x);
    }
  }

  lemma ImportKeepsAgreed(g: Graph, t: Token, a: Token, b: Token)
    requires NoDeadCycle(g) && Agreed(g, a, b) && !Visits(g, a, t) && !Visits(g, b, t)
    ensures Agreed(Imported(g, t), a, b)
  {
    UnvisitedImport(g, t, a);
    UnvisitedImport(g, t, b);
  }

  lemma UnvisitedImport(g: Graph, t: Token, x: Token)
    requires NoDeadCycle(g) && !Visits(g, x, t)
    ensures Resolve(Imported(g, t), x) == Resolve(g, x) != t
  {
    ImportRedirects(g, t, x);
    ReachesResolution(g, x);
  }

  lemma RotationKeepsNames(g: Graph, t: Token, n: Token, leases: seq<Lease>)
    requires NoDeadCycle(g) && t in g.live && n !in g.live && n != "" && t != ""
    requires NamesOk(g, leases) && AllThrough(g, leases, n, t)
    ensures NamesOk(Rotated(g, t, n), leases)
  {
    forall l, x | l in leases && l.held && IsName(l, x) ensures Agreed(Rotated(g, t, n), l.token, x) {
      assert IsName(l, l.token);
      ThroughRotation(g, t, n, l.token);
      ThroughRotation(g, t, n, x);
      assert Agreed(g, l.token, x);
    }
  }

  lemma ThroughRotation(g: Graph, t: Token, n: Token, x: Token)
    requires NoDeadCycle(g) && t in g.live && n !in g.live && n != "" && t != ""
    requires Visits(g, x, n) ==> Resolve(g, x) == t
    ensures Resolve(Rotated(g, t, n), x) == if Resolve(g, x) == t then n else Resolve(g, x)
    ensures Resolve(g, x) != n
  {
    RotationRedirects(g, t, n, x);
    ReachesResolution(g, x);
  }

  /** A name that a rotation or an import captures, away from the token of its lease, is torn off. */
  lemma CapturedNameDisagrees(h: Graph, leases: seq<Lease>, l: Lease, x: Token)
    requires l in leases && l.held && IsName(l, x)
    requires Resolve(h, x) in h.live && Resolve(h, l.token) != Resolve(h, x)
    ensures !NamesOk(h, leases)
  {
    assert !Agreed(h, l.token, x);
  }

  lemma RemovalKeepsPoolOk(p: Pool, gone: set<Token>)
    requires PoolOk(p)
    ensures PoolOk(RemoveAll(p, gone)) && Aliases(RemoveAll(p, gone)) == Forgotten(Aliases(p), gone)
  {
    assert Aliases(RemoveAll(p, gone)) == Forgotten(Aliases(p), gone);
    DeletionKeepsNoDeadCycle(Aliases(p), gone);
    OrderAfterRemoval(p, gone);
  }

  lemma RemovalKeepsSlots(s: System, gone: set<Token>)
    requires SlotInv(s) && forall x :: x in gone ==> !Hops(Aliases(s.pool), x)
    ensures SlotInv(s.(pool := RemoveAll(s.pool, gone)))
  {
    RemovalKeepsPoolOk(s.pool, gone);
    RemovalKeepsCounts(Aliases(s.pool), s.pool.inflight, s.pool.limit, s.leases, gone);
    RemovalKeepsNames(Aliases(s.pool), gone, s.leases);
  }

  lemma RemovalKeepsCounts(g: Graph, inflight: map<Token, nat>, limit: nat, leases: seq<Lease>, gone: set<Token>)
    requires NoDeadCycle(g) && CountsOk(g, inflight, limit, leases) && forall x :: x in gone ==> !Hops(g, x)
    ensures CountsOk(Forgotten(g, gone), inflight - gone, limit, leases)
  {
    forall t | t in Forgotten(g, gone).live
      ensures Counter(inflight - gone, t) == CountAt(Forgotten(g, gone), leases, t)
    {
      RemovalKeepsCount(g, gone, leases, t);
    }
  }

  lemma RemovalKeepsCount(g: Graph, gone: set<Token>, leases: seq<Lease>, t: Token)
    requires NoDeadCycle(g) && (forall x :: x in gone ==> !Hops(g, x)) && t in g.live && t !in gone
    ensures CountAt(Forgotten(g, gone), leases, t) == CountAt(g, leases, t)
  {
    forall l | l in leases && l.held
      ensures Resolve(Forgotten(g, gone), l.token) == t <==> Resolve(g, l.token) == t
    {
      DeletionRedirects(g, gone, l.token);
    }
    CountSame(g, Forgotten(g, gone), leases, t, t);
  }

  /** A release under any name of the lease takes the slot from the account that the lease stands for,
      or takes none when that account is gone. */
  lemma ReleaseKeepsSlots(s: System, id: nat, name: Token)
    requires SlotInv(s) && id < |s.leases| && s.leases[id].held
    requires Agreed(Aliases(s.pool), s.leases[id].token, name)
    ensures SlotInv(System(ReleaseSlot(s.pool, name), s.leases[id := s.leases[id].(held := false)]))
  {
    ReleaseKeepsCounters(s.pool, s.leases, id, name);
    SettledNamesOk(Aliases(s.pool), s.leases, id);
    SamePoolOk(s.pool, ReleaseSlot(s.pool, name));
  }

  lemma ReleaseKeepsCounters(p: Pool, leases: seq<Lease>, id: nat, name: Token)
    requires CountersOk(p, leases) && id < |leases| && leases[id].held && Agreed(Aliases(p), leases[id].token, name)
    ensures CountersOk(ReleaseSlot(p, name), leases[id := leases[id].(held := false)])
  {
    var after := leases[id := leases[id].(held := false)];
    forall t | t in Aliases(p).live ensures Counter(ReleaseSlot(p, name).inflight, t) == CountAt(Aliases(p), after, t) {
      CountSettled(Aliases(p), leases, id, t);
    }
  }

  lemma SettledNamesOk(g: Graph, leases: seq<Lease>, id: nat)
    requires NamesOk(g, leases) && id < |leases|
    ensures NamesOk(g, leases[id := leases[id].(held := false)])
  {
    var after := leases[id := leases[id].(held := false)];
    forall l | l in after && l.held ensures l in leases {
      var i :| 0 <= i < |after| && after[i] == l;
      assert leases[i] == l;
    }
  }

  /** A name that stands for the account of its lease may be given to the holder. */
  lemma NamingKeepsSlots(s: System, id: nat, name: Token)
    requires SlotInv(s) && Enabled(s, Naming(id, name))
    ensures SlotInv(Step(s, Naming(id, name)))
  {
    var g, after := Aliases(s.pool), StepLeases(s, Naming(id, name));
    forall l, x | l in after && l.held && IsName(l, x) ensures Agreed(g, l.token, x) {
      var i :| 0 <= i < |after| && after[i] == l;
      assert s.leases[i] in s.leases && (IsName(s.leases[i], x) || (i == id && x == name));
    }
    forall u ensures CountAt(g, after, u) == CountAt(g, s.leases, u) {
      CountRenamed(g, s.leases, after, u);
    }
  }

  lemma {:induction false} CountRenamed(g: Graph, a: seq<Lease>, b: seq<Lease>, u: Token)
    requires |a| == |b| && forall i :: 0 <= i < |a| ==> a[i].token == b[i].token && a[i].held == b[i].held
    ensures CountAt(g, a, u) == CountAt(g, b, u)
  {
    if a != [] {
      CountRenamed(g, a[..|a| - 1], b[..|b| - 1], u);
    }
  }

  /** A slot is only ever taken on a live account that passes the filters and is below its limit. */
  lemma AcquiredIsCandidate(p: Pool, f: Filters, excluded: set<Token>)
    requires AcquireResult(p, f, excluded).Got?
    ensures var t := AcquireResult(p, f, excluded).token;
            IsCandidate(p, f, excluded, t) && Inflight(p, t) < p.limit
  {
    var available := AvailableTokens(p, f, excluded);
    assert available[p.index % |available|] in available;
  }

  lemma CountAppended(g: Graph, leases: seq<Lease>, owner: nat, t: Token, u: Token)
    requires Resolve(g, t) == t
    ensures CountAt(g, leases + [NewLease(owner, t)], u) == CountAt(g, leases, u) + if t == u then 1 else 0
  {
    assert (leases + [NewLease(owner, t)])[..|leases|] == leases;
  }

  lemma AcquireKeepsSlots(s: System, owner: nat, f: Filters, excluded: set<Token>)
    requires SlotInv(s)
    ensures SlotInv(Step(s, Acquiring(owner, f, excluded)))
  {
    var got := AcquireResult(s.pool, f, excluded);
    if got.Got? {
      AcquiredIsCandidate(s.pool, f, excluded);
      SamePoolOk(s.pool, Acquire(s.pool, f, excluded));
      TakingKeepsSlots(s.pool, s.leases, owner, got.token);
    }
  }

  lemma TakingKeepsSlots(p: Pool, leases: seq<Lease>, owner: nat, t: Token)
    requires SlotsOk(p, leases) && t in p.accounts && Inflight(p, t) < p.limit
    ensures SlotsOk(Taken(p, t), leases + [NewLease(owner, t)])
  {
    assert Aliases(Taken(p, t)) == Aliases(p);
    TakingKeepsCounts(Aliases(p), p.inflight, p.limit, leases, owner, t);
    AppendedNamesOk(Aliases(p), leases, owner, t);
  }

  lemma TakingKeepsCounts(g: Graph, inflight: map<Token, nat>, limit: nat, leases: seq<Lease>, owner: nat, t: Token)
    requires CountsOk(g, inflight, limit, leases) && t in g.live && Counter(inflight, t) < limit
    ensures CountsOk(g, inflight[t := Counter(inflight, t) + 1], limit, leases + [NewLease(owner, t)])
  {
    ResolveTerminal(g, t);
    forall u { CountAppended(g, leases, owner, t, u); }
  }

  lemma AppendedNamesOk(g: Graph, leases: seq<Lease>, owner: nat, t: Token)
    requires NamesOk(g, leases)
    ensures NamesOk(g, leases + [NewLease(owner, t)])
  {
    forall l, x | l in leases + [NewLease(owner, t)] && l.held && IsName(l, x) ensures Agreed(g, l.token, x) {
      assert l in leases || l == NewLease(owner, t);
    }
  }

  lemma SettleKeepsSlots(s: System, id: nat, name: Token, how: Settlement)
    requires SlotInv(s) && Enabled(s, Settling(id, name, how))
    ensures SlotInv(Step(s, Settling(id, name, how)))
  {
    var t := ResolveIn(s.pool, name);
    assert s.leases[id] in s.leases;
    ResolvedIsTerminal(s.pool, name);
    ReleaseKeepsSlots(s, id, name);
    ReleaseKeepsSlots(s, id, t);
    SettledRecord(System(ReleaseSlot(s.pool, t), StepLeases(s, Settling(id, name, how))), t, how);
  }

  /** What a settlement does to the record of the account, after the release. */
  lemma SettledRecord(released: System, t: Token, how: Settlement)
    requires SlotInv(released) && !Hops(Aliases(released.pool), t)
    ensures how.Marked? && t in released.pool.accounts ==>
              SlotInv(released.(pool := PutAccount(released.pool, t, Charged(released.pool.accounts[t], how.outcome))))
    ensures how.Exhausted? && t in released.pool.accounts ==>
              && SlotInv(released.(pool := RemoveAll(released.pool, {t})))
              && SlotInv(released.(pool := PutAccount(released.pool, t, released.pool.accounts[t].(status := Limited, quota := 0, quotaUnknown := false))))
  {
    if t in released.pool.accounts {
      match how
      case Plain =>
      case Marked(o) => PutExisting(released, t, Charged(released.pool.accounts[t], o));
      case Exhausted(autoRemove) =>
        RemovalKeepsSlots(released, {t});
        PutExisting(released, t, released.pool.accounts[t].(status := Limited, quota := 0, quotaUnknown := false));
    }
  }

  lemma UpdateKeepsSlots(s: System, name: Token, a: Account, autoRemove: bool)
    requires SlotInv(s)
    ensures SlotInv(Step(s, Updating(name, a, autoRemove)))
  {
    var t := ResolveIn(s.pool, name);
    ResolvedIsTerminal(s.pool, name);
    if t in s.pool.accounts {
      RemovalKeepsSlots(s, {t});
      PutExisting(s, t, a.(accessToken := t));
    }
  }

  lemma DeleteKeepsSlots(s: System, names: set<Token>)
    requires SlotInv(s)
    ensures SlotInv(Step(s, Deleting(names)))
  {
    forall x | x in DeleteTargets(s.pool, names) ensures !Hops(Aliases(s.pool), x) {
      var t :| t in names && t != "" && x == ResolveIn(s.pool, t);
      ResolvedIsTerminal(s.pool, t);
    }
    RemovalKeepsSlots(s, DeleteTargets(s.pool, names));
  }

  // ---- Import, rotation and re-import: exactly when the slots survive ----

  lemma ImportedPoolOk(p: Pool, t: Token, a: Account)
    requires PoolOk(p) && t != ""
    ensures PoolOk(Import(p, t, a)) && Aliases(Import(p, t, a)) == Imported(Aliases(p), t)
  {
    OrderAfterPut(p, t, a.(accessToken := t));
    ImportKeepsNoDeadCycle(Aliases(p), t);
    assert Import(p, t, a).accounts.Keys == p.accounts.Keys + {t};
  }

  /** Importing a token that is not in the pool keeps the slots if and only if no name of an outstanding
      lease passes through it: a lease taken on the token before it was deleted would otherwise have no
      counter, and one that is settled under it would take the slot of another. */
  lemma ImportKeepsSlotsIff(s: System, t: Token, a: Account)
    requires SlotInv(s) && t != "" && t !in s.pool.accounts
    ensures SlotInv(Step(s, Importing(t, a))) <==> NoLeaseVisits(s, t)
  {
    var g, p := Aliases(s.pool), Import(s.pool, t, a);
    ImportedPoolOk(s.pool, t, a);
    if NoLeaseVisits(s, t) {
      ImportKeepsNames(g, t, s.leases);
      ImportKeepsCounts(g, s.pool.inflight, s.pool.limit, s.leases, t);
    } else {
      var l, x :| l in s.leases && l.held && IsName(l, x) && Visits(g, x, t);
      CapturedByImport(g, t, s.leases, l, x);
      assert Counter(p.inflight, t) == 0 && t in Aliases(p).live;
    }
  }

  lemma ImportKeepsCounts(g: Graph, inflight: map<Token, nat>, limit: nat, leases: seq<Lease>, t: Token)
    requires NoDeadCycle(g) && t !in g.live && NoneVisits(g, leases, t) && CountsOk(g, inflight, limit, leases)
    ensures CountsOk(Imported(g, t), inflight, limit, leases)
  {
    forall u | u in Imported(g, t).live ensures Counter(inflight, u) == CountAt(Imported(g, t), leases, u) {
      ImportKeepsCount(g, t, leases, u);
    }
  }

  lemma ImportKeepsCount(g: Graph, t: Token, leases: seq<Lease>, u: Token)
    requires NoDeadCycle(g) && t !in g.live && NoneVisits(g, leases, t)
    ensures CountAt(Imported(g, t), leases, u) == if u == t then 0 else CountAt(g, leases, u)
  {
    forall l | l in leases && l.held ensures Resolve(Imported(g, t), l.token) == Resolve(g, l.token) != t {
      assert IsName(l, l.token);
      UnvisitedImport(g, t, l.token);
    }
    if u == t {
      CountZero(Imported(g, t), leases, t);
    } else {
      CountSame(g, Imported(g, t), leases, u, u);
    }
  }

  /** A lease that passes through the imported token is counted there, or is torn from its name. */
  lemma CapturedByImport(g: Graph, t: Token, leases: seq<Lease>, l: Lease, x: Token)
    requires NoDeadCycle(g) && l in leases && l.held && IsName(l, x) && Visits(g, x, t)
    ensures CountAt(Imported(g, t), leases, t) > 0 || !NamesOk(Imported(g, t), leases)
  {
    var h := Imported(g, t);
    ImportRedirects(g, t, x);
    ImportRedirects(g, t, l.token);
    if Visits(g, l.token, t) {
      if CountAt(h, leases, t) == 0 {
        CountNone(h, leases, t);
      }
    } else {
      UnvisitedImport(g, t, l.token);
      CapturedNameDisagrees(h, leases, l, x);
    }
  }

  lemma ReachesResolution(g: Graph, t: Token)
    requires NoDeadCycle(g)
    ensures Visits(g, t, Resolve(g, t))
  {
    var p := ResolveWalk(g, t);
    assert Path(g, p) && p[0] == t && p[|p| - 1] == Resolve(g, t);
  }

  lemma {:induction false} CountZero(g: Graph, leases: seq<Lease>, u: Token)
    requires forall l :: l in leases && l.held ==> Resolve(g, l.token) != u
    ensures CountAt(g, leases, u) == 0
  {
    if leases != [] {
      assert leases[|leases| - 1] in leases;
      CountZero(g, leases[..|leases| - 1], u);
    }
  }

  /** A rotated pool, seen through its structures. */
  lemma RotatedPoolOk(p: Pool, t: Token, n: Token, a: Account)
    requires PoolOk(p) && t in p.accounts && n !in p.accounts && n != "" && a.accessToken == n
    ensures PoolOk(RotatePool(p, t, n, a))
    ensures Aliases(RotatePool(p, t, n, a)) == Rotated(Aliases(p), t, n)
    ensures RotatePool(p, t, n, a).inflight == RotateCounter(p, t, n) && RotatePool(p, t, n, a).limit == p.limit
  {
    RotationKeepsNoDeadCycle(Aliases(p), t, n);
    OrderAfterPop(p, t);
    var q := RotateQueue(PopAccount(p, t), t, n).(aliases := p.aliases[t := n], inflight := RotateCounter(p, t, n));
    assert q.accounts == PopAccount(p, t).accounts && q.order == PopAccount(p, t).order;
    OrderAfterPut(q, n, a);
    assert PutAccount(q, n, a).accounts.Keys == p.accounts.Keys - {t} + {n};
  }

  /** The pool after an event that rotates `t` to `n`. */
  lemma RotationEffect(s: System, e: Event)
    requires PoolOk(s.pool) && Rotates(s.pool, e)
    ensures var t, n, p := ResolveIn(s.pool, e.name), RotatedTo(s.pool, e), StepPool(s.pool, e);
            && t in s.pool.accounts && t != "" && n != "" && n !in s.pool.accounts
            && PoolOk(p)
            && Aliases(p) == Rotated(Aliases(s.pool), t, n)
            && p.inflight == RotateCounter(s.pool, t, n)
            && p.limit == s.pool.limit
  {
    var t, n := ResolveIn(s.pool, e.name), RotatedTo(s.pool, e);
    var a := Refreshed(s.pool.accounts[t], n, e.data);
    RotatedPoolOk(s.pool, t, n, a);
    assert StepPool(s.pool, e) == RotatePool(s.pool, t, n, a);
  }

  /** A rotation keeps the slots if and only if every name of an outstanding lease that passes through
      the new token already belonged to the rotated account. */
  lemma RotationKeepsSlotsIff(s: System, e: Event)
    requires SlotInv(s) && Rotates(s.pool, e)
    ensures SlotInv(Step(s, e)) <==> LeasesThrough(s, RotatedTo(s.pool, e), ResolveIn(s.pool, e.name))
  {
    RotationEffect(s, e);
    RotatedCounters(s.pool, s.leases, ResolveIn(s.pool, e.name), RotatedTo(s.pool, e), StepPool(s.pool, e));
  }

  lemma RotatedCounters(p: Pool, leases: seq<Lease>, t: Token, n: Token, q: Pool)
    requires NoDeadCycle(Aliases(p)) && SlotsOk(p, leases)
    requires t in p.accounts && n !in p.accounts && n != "" && t != ""
    requires Aliases(q) == Rotated(Aliases(p), t, n) && q.inflight == RotateCounter(p, t, n) && q.limit == p.limit
    ensures SlotsOk(q, leases) <==> AllThrough(Aliases(p), leases, n, t)
  {
    var g := Aliases(p);
    CounterIsMoved(p, t, n);
    if AllThrough(g, leases, n, t) {
      RotationKeepsNames(g, t, n, leases);
      RotationKeepsCounts(g, p.inflight, p.limit, leases, t, n, q.inflight);
    } else {
      var l, x :| l in leases && l.held && IsName(l, x) && Visits(g, x, n) && Resolve(g, x) != t;
      CapturedByRotation(g, t, n, leases, l, x);
      assert Counter(q.inflight, n) == Counter(p.inflight, t) == CountAt(g, leases, t);
      assert n in Aliases(q).live;
    }
  }

  lemma CounterIsMoved(p: Pool, t: Token, n: Token)
    requires p.inflight.Keys <= p.accounts.Keys && t in p.accounts && n !in p.accounts
    requires forall u :: u in p.inflight ==> p.inflight[u] >= 1
    ensures IsMoved(p.inflight, t, n, RotateCounter(p, t, n))
  {
  }

  /** The counters after the counter of `t` was moved to `n`. */
  ghost predicate IsMoved(before: map<Token, nat>, t: Token, n: Token, after: map<Token, nat>) {
    && after.Keys <= before.Keys - {t} + {n}
    && (forall u :: u in after ==> after[u] >= 1)
    && (forall u :: u != t ==> Counter(after, u) == Counter(before, if u == n then t else u))
  }

  lemma RotationKeepsCounts(g: Graph, inflight: map<Token, nat>, limit: nat, leases: seq<Lease>, t: Token, n: Token, after: map<Token, nat>)
    requires NoDeadCycle(g) && t in g.live && n !in g.live && n != "" && t != ""
    requires CountsOk(g, inflight, limit, leases) && AllThrough(g, leases, n, t) && IsMoved(inflight, t, n, after)
    ensures CountsOk(Rotated(g, t, n), after, limit, leases)
  {
    var h := Rotated(g, t, n);
    forall u | u in h.live ensures Counter(after, u) == CountAt(h, leases, u) {
      RotationMovesCount(g, t, n, leases, u);
    }
    forall u | u in after ensures 1 <= after[u] <= limit {
      assert after[u] == Counter(after, u) == Counter(inflight, if u == n then t else u);
    }
  }

  lemma CapturedByRotation(g: Graph, t: Token, n: Token, leases: seq<Lease>, l: Lease, x: Token)
    requires NoDeadCycle(g) && t in g.live && n !in g.live && n != "" && t != "" && NamesOk(g, leases)
    requires l in leases && l.held && IsName(l, x) && Visits(g, x, n) && Resolve(g, x) != t
    ensures CountAt(Rotated(g, t, n), leases, n) > CountAt(g, leases, t) || !NamesOk(Rotated(g, t, n), leases)
  {
    if Visits(g, l.token, n) && Resolve(g, l.token) != t {
      RotationAddsCount(g, t, n, leases);
    } else {
      assert Agreed(g, l.token, x);
      ThroughRotation(g, t, n, l.token);
      RotationRedirects(g, t, n, x);
      CapturedNameDisagrees(Rotated(g, t, n), leases, l, x);
    }
  }

  lemma RotationMovesCount(g: Graph, t: Token, n: Token, leases: seq<Lease>, u: Token)
    requires NoDeadCycle(g) && t in g.live && n !in g.live && n != "" && t != ""
    requires AllThrough(g, leases, n, t)
    requires u in Rotated(g, t, n).live
    ensures CountAt(Rotated(g, t, n), leases, u) == CountAt(g, leases, if u == n then t else u)
  {
    var h := Rotated(g, t, n);
    forall l | l in leases && l.held
      ensures Resolve(h, l.token) == u <==> Resolve(g, l.token) == if u == n then t else u
    {
      assert IsName(l, l.token);
      ThroughRotation(g, t, n, l.token);
    }
    CountSame(g, h, leases, if u == n then t else u, u);
  }

  lemma RotationAddsCount(g: Graph, t: Token, n: Token, leases: seq<Lease>)
    requires NoDeadCycle(g) && t in g.live && n !in g.live && n != "" && t != ""
    requires exists l :: l in leases && l.held && Visits(g, l.token, n) && Resolve(g, l.token) != t
    ensures CountAt(Rotated(g, t, n), leases, n) > CountAt(g, leases, t)
  {
    var h := Rotated(g, t, n);
    var l :| l in leases && l.held && Visits(g, l.token, n) && Resolve(g, l.token) != t;
    forall k | k in leases && k.held && Resolve(g, k.token) == t ensures Resolve(h, k.token) == n {
      RotationRedirects(g, t, n, k.token);
    }
    RotationRedirects(g, t, n, l.token);
    CountMore(g, h, leases, t, n, l);
  }

  /** Re-importing a Firefly identity keeps the slots if and only if its account had no slot in use
      and no name of an outstanding lease passes through the new token: the counter stays under the dead
      token, where no acquisition and no release of the new account finds it. */
  lemma ReimportKeepsSlotsIff(s: System, existing: Token, t: Token, a: Account)
    requires SlotInv(s) && t != "" && existing in s.pool.accounts && t !in s.pool.accounts
    ensures SlotInv(Step(s, Reimporting(existing, t, a))) <==>
            existing !in s.pool.inflight && NoLeaseVisits(s, t)
  {
    var q := Reimport(s.pool, existing, t, a);
    ReimportedPoolOk(s.pool, existing, t, a);
    ReimportedCounters(s.pool, s.leases, existing, t, q);
    assert Step(s, Reimporting(existing, t, a)) == System(q, s.leases);
  }

  lemma ReimportedCounters(p: Pool, leases: seq<Lease>, existing: Token, t: Token, q: Pool)
    requires NoDeadCycle(Aliases(p)) && SlotsOk(p, leases)
    requires existing in p.accounts && t !in p.accounts && t != "" && existing != ""
    requires Aliases(q) == Rotated(Aliases(p), existing, t) && q.inflight == p.inflight && q.limit == p.limit
    ensures SlotsOk(q, leases) <==> existing !in p.inflight && NoneVisits(Aliases(p), leases, t)
  {
    var g := Aliases(p);
    if existing in p.inflight {
      assert existing !in Aliases(q).live;
    } else if NoneVisits(g, leases, t) {
      RotationKeepsNames(g, existing, t, leases);
      RotationKeepsCounts(g, p.inflight, p.limit, leases, existing, t, q.inflight);
    } else {
      var l, x :| l in leases && l.held && IsName(l, x) && Visits(g, x, t);
      assert Counter(q.inflight, t) == Counter(p.inflight, existing) == CountAt(g, leases, existing) == 0;
      CountNone(g, leases, existing);
      assert Agreed(g, l.token, x);
      CapturedByRotation(g, existing, t, leases, l, x);
      assert t in Aliases(q).live;
    }
  }

  lemma ReimportedPoolOk(p: Pool, existing: Token, t: Token, a: Account)
    requires PoolOk(p) && t != "" && existing in p.accounts && t !in p.accounts
    ensures PoolOk(Reimport(p, existing, t, a))
    ensures Aliases(Reimport(p, existing, t, a)) == Rotated(Aliases(p), existing, t)
  {
    RotationKeepsNoDeadCycle(Aliases(p), existing, t);
    OrderAfterPop(p, existing);
    var q := PopAccount(p, existing).(aliases := p.aliases[existing := t]);
    OrderAfterPut(q, t, a.(accessToken := t));
    assert Reimport(p, existing, t, a).accounts.Keys == p.accounts.Keys - {existing} + {t};
  }

  // ---- Every step, every run ----

  /** The alias graph and the account map stay well formed in every step, slots or not. */
  lemma StepKeepsPoolOk(s: System, e: Event)
    requires PoolOk(s.pool) && Enabled(s, e)
    ensures PoolOk(StepPool(s.pool, e))
  {
    match e
    case Acquiring(_, f, excluded) => AcquirePoolOk(s.pool, f, excluded);
    case Naming(_, _) =>
    case Settling(_, name, how) => SettledPoolOk(s.pool, name, how);
    case Updating(name, a, autoRemove) => UpdatedPoolOk(s.pool, name, a, autoRemove);
    case Deleting(names) => RemovalKeepsPoolOk(s.pool, DeleteTargets(s.pool, names));
    case Importing(u, a) => ImportedPoolOk(s.pool, u, a);
    case Reimporting(existing, u, a) => ReimportedPoolOk(s.pool, existing, u, a);
    case Applying(name, data, expected) => AppliedPoolOk(s, e);
    case _ => QueueStepsKeepPool(s.pool, e);
  }

  lemma SamePoolOk(p: Pool, q: Pool)
    requires PoolOk(p) && p.limit == q.limit && p.accounts == q.accounts && p.order == q.order && p.aliases == q.aliases
    ensures PoolOk(q) && Aliases(p) == Aliases(q)
  {
  }

  lemma AcquirePoolOk(p: Pool, f: Filters, excluded: set<Token>)
    requires PoolOk(p)
    ensures PoolOk(Acquire(p, f, excluded))
  {
    SamePoolOk(p, Acquire(p, f, excluded));
  }

  lemma ReleasedPoolOk(p: Pool, name: Token)
    requires PoolOk(p)
    ensures PoolOk(ReleaseSlot(p, name)) && ReleaseSlot(p, name).accounts == p.accounts
  {
    SamePoolOk(p, ReleaseSlot(p, name));
  }

  lemma MarkedPoolOk(p: Pool, name: Token, o: Outcome)
    requires PoolOk(p)
    ensures PoolOk(MarkResult(p, name, o))
  {
    var t := ResolveIn(p, name);
    ReleasedPoolOk(p, t);
    if t in p.accounts {
      PutKeepsPoolOk(ReleaseSlot(p, t), t, Charged(p.accounts[t], o));
    }
  }

  lemma ExhaustedPoolOk(p: Pool, name: Token, autoRemove: bool)
    requires PoolOk(p)
    ensures PoolOk(ReportExhausted(p, name, autoRemove))
  {
    var t := ResolveIn(p, name);
    ReleasedPoolOk(p, t);
    if t in p.accounts {
      RemovalKeepsPoolOk(ReleaseSlot(p, t), {t});
      PutKeepsPoolOk(ReleaseSlot(p, t), t, p.accounts[t].(status := Limited, quota := 0, quotaUnknown := false));
    }
  }

  lemma SettledPoolOk(p: Pool, name: Token, how: Settlement)
    requires PoolOk(p)
    ensures PoolOk(Settle(p, name, how))
  {
    match how
    case Plain => ReleasedPoolOk(p, name);
    case Marked(outcome) => MarkedPoolOk(p, name, outcome);
    case Exhausted(autoRemove) => ExhaustedPoolOk(p, name, autoRemove);
  }

  lemma UpdatedPoolOk(p: Pool, name: Token, a: Account, autoRemove: bool)
    requires PoolOk(p)
    ensures PoolOk(UpdateAccount(p, name, a, autoRemove))
  {
    var t := ResolveIn(p, name);
    if t in p.accounts {
      RemovalKeepsPoolOk(p, {t});
      PutKeepsPoolOk(p, t, a.(accessToken := t));
    }
  }

  lemma AppliedPoolOk(s: System, e: Event)
    requires PoolOk(s.pool) && e.Applying?
    ensures PoolOk(StepPool(s.pool, e))
  {
    var t := ResolveIn(s.pool, e.name);
    if Rotates(s.pool, e) {
      RotationEffect(s, e);
    } else if ApplyResult(s.pool, e.name, e.data, e.expected).Installed? {
      PutKeepsPoolOk(s.pool, t, Refreshed(s.pool.accounts[t], t, e.data));
    }
  }

  /** The steps of the check queue change nothing else. */
  lemma QueueStepsKeepPool(p: Pool, e: Event)
    requires e.Scheduling? || e.Starting? || e.Finishing?
    ensures SameAccounts(p, StepPool(p, e))
    ensures PoolOk(p) ==> PoolOk(StepPool(p, e))
    ensures Aliases(StepPool(p, e)) == Aliases(p)
  {
    QueueStepsFrame(p, e);
    if PoolOk(p) {
      SamePoolOk(p, StepPool(p, e));
    }
  }

  /** The fields that the check queue does not touch. */
  ghost predicate SameAccounts(p: Pool, q: Pool) {
    q.limit == p.limit && q.accounts == p.accounts && q.order == p.order && q.aliases == p.aliases && q.inflight == p.inflight
  }

  lemma ScheduleFrame(p: Pool, name: Token, force: bool, now: int, pick: Token)
    ensures SameAccounts(p, Schedule(p, name, force, now, pick))
  {
  }

  lemma QueueStepsFrame(p: Pool, e: Event)
    requires e.Scheduling? || e.Starting? || e.Finishing?
    ensures SameAccounts(p, StepPool(p, e))
  {
    if e.Scheduling? {
      ScheduleFrame(p, e.name, e.force, e.now, e.pick);
    }
  }

  lemma StepKeepsSlots(s: System, e: Event)
    requires SlotInv(s) && Enabled(s, e) && SlotSafe(s, e)
    ensures SlotInv(Step(s, e))
  {
    match e
    case Acquiring(owner, f, excluded) => AcquireKeepsSlots(s, owner, f, excluded);
    case Naming(id, name) => NamingKeepsSlots(s, id, name);
    case Settling(id, name, how) => SettleKeepsSlots(s, id, name, how);
    case Updating(name, a, autoRemove) => UpdateKeepsSlots(s, name, a, autoRemove);
    case Deleting(names) => DeleteKeepsSlots(s, names);
    case Importing(t, a) => ImportKeepsSlots(s, t, a);
    case Reimporting(existing, t, a) => ReimportKeepsSlotsIff(s, existing, t, a);
    case Applying(_, _, _) => ApplyKeepsSlots(s, e);
    case _ => QueueKeepsSlots(s, e);
  }

  lemma ImportKeepsSlots(s: System, t: Token, a: Account)
    requires SlotInv(s) && t != "" && SlotSafe(s, Importing(t, a))
    ensures SlotInv(Step(s, Importing(t, a)))
  {
    if t in s.pool.accounts {
      PutExisting(s, t, a.(accessToken := t));
    } else {
      ImportKeepsSlotsIff(s, t, a);
    }
  }

  lemma QueueKeepsSlots(s: System, e: Event)
    requires SlotInv(s) && (e.Scheduling? || e.Starting? || e.Finishing?)
    ensures SlotInv(Step(s, e))
  {
    QueueStepsKeepPool(s.pool, e);
  }

  lemma ApplyKeepsSlots(s: System, e: Event)
    requires SlotInv(s) && e.Applying? && SlotSafe(s, e)
    ensures SlotInv(Step(s, e))
  {
    if Rotates(s.pool, e) {
      RotationKeepsSlotsIff(s, e);
    } else if ApplyResult(s.pool, e.name, e.data, e.expected).Installed? {
      var t := ResolveIn(s.pool, e.name);
      PutExisting(s, t, Refreshed(s.pool.accounts[t], t, e.data));
    }
  }

  ghost function Run(s: System, es: seq<Event>): System {
    if es == [] then s else Step(Run(s, es[..|es| - 1]), es[|es| - 1])
  }

  /** Every event of the run is enabled, and keeps to the condition for slots, when it happens. */
  ghost predicate RunOk(s: System, es: seq<Event>) {
    forall i :: 0 <= i < |es| ==> Enabled(Run(s, es[..i]), es[i]) && SlotSafe(Run(s, es[..i]), es[i])
  }

  ghost predicate RunEnabled(s: System, es: seq<Event>) {
    forall i :: 0 <= i < |es| ==> Enabled(Run(s, es[..i]), es[i])
  }

  /** A service that has just loaded its accounts. */
  ghost predicate Initial(s: System) {
    && PoolOk(s.pool) && s.pool.aliases == map[] && s.pool.inflight == map[] && s.leases == []
    && s.pool.pending == [] && s.pool.pendingSet == {} && s.pool.active == {} && s.pool.rerun == {}
  }

  /** Slot conservation in every reachable state. */
  lemma {:induction false} SlotsInEveryRun(s: System, es: seq<Event>)
    requires Initial(s) && RunOk(s, es)
    ensures SlotInv(Run(s, es))
  {
    if es != [] {
      var n := |es| - 1;
      forall i | 0 <= i < n
        ensures Enabled(Run(s, es[..n][..i]), es[..n][i]) && SlotSafe(Run(s, es[..n][..i]), es[..n][i])
      {
        assert es[..n][..i] == es[..i];
      }
      SlotsInEveryRun(s, es[..n]);
      StepKeepsSlots(Run(s, es[..n]), es[n]);
    }
  }

  /** In every reachable state, with re-imports and rotations to used tokens too, no alias cycle
      consists of dead tokens only, so every token resolves to a live account or to a token that
      has no replacement. */
  lemma {:induction false} AliasesAlwaysResolve(s: System, es: seq<Event>, t: Token)
    requires Initial(s) && RunEnabled(s, es)
    ensures PoolOk(Run(s, es).pool)
    ensures var p := Run(s, es).pool; var r := ResolveIn(p, t); r in p.accounts || r !in p.aliases
  {
    if es != [] {
      var n := |es| - 1;
      forall i | 0 <= i < n ensures Enabled(Run(s, es[..n][..i]), es[..n][i]) {
        assert es[..n][..i] == es[..i];
      }
      AliasesAlwaysResolve(s, es[..n], t);
      StepKeepsPoolOk(Run(s, es[..n]), es[n]);
    }
    ResolutionEnds(Aliases(Run(s, es).pool), t);
  }

  /** A token that no lease and no alias ever named meets the condition of `SlotSafe`. */
  lemma FreshTokensAreSafe(s: System, t: Token)
    requires forall l :: l in s.leases ==> !IsName(l, t)
    requires forall x :: x in s.pool.aliases ==> s.pool.aliases[x] != t
    ensures NoLeaseVisits(s, t)
  {
    forall l, x | l in s.leases && l.held && IsName(l, x) ensures !Visits(Aliases(s.pool), x, t) {
      forall p: seq<Token> | Path(Aliases(s.pool), p) && p[0] == x ensures p[|p| - 1] != t {
        if |p| > 1 {
          assert p[|p| - 2 + 1] == s.pool.aliases[p[|p| - 2]];
        }
      }
    }
  }

  // ---- What local accounting may do to an account ----

  /** Charging a result never takes an account out of the candidates, except a Firefly account that
      is a candidate only because of its last unit of quota. */
  lemma ChargingKeepsCandidatesIff(a: Account, o: Outcome)
    requires IsAvailable(a)
    ensures !IsAvailable(Charged(a, o)) <==>
            a.source == FIREFLY && a.status.Other? && a.quota == 1 && !a.quotaUnknown && o.consumed
  {
  }
}
