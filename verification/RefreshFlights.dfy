/** The OAuth refresh of an account (the refresh grant, section 6 of RFC 6749) as a protocol between
    concurrent callers: one flight per credential pair, and a compare-and-set installation. */
module RefreshFlights {
  import opened Sequences
  import opened AliasGraph
  import opened AccountPool
  import opened SlotConservation

  /** The pair of access token and refresh token that a caller found on the account. */
  datatype Key = Key(access: Token, refresh: string)

  datatype Reply = Tokens(data: TokenData) | Terminal | Transient

  /** Where a caller of `refresh_access_token` stands. */
  datatype Phase =
    | Ready(key: Key)                  // credentials read, flight table not yet consulted
    | Waiting(key: Key, owner: nat)    // joined the flight of another caller
    | Owning(key: Key)                 // created the flight
    | Requesting(key: Key)             // holds the request lock, the request is out
    | Answered(key: Key, reply: Reply) // holds the request lock, the response is in
    | Removing(key: Key)               // marked the account of a dead credential, about to delete it
    | Remarking(key: Key)              // the deletion found no account
    | Settled(key: Key)                // outcome handled, flight still in the table

  /** `removeInvalid` is the configured automatic removal of invalid accounts. */
  datatype Service = Service(
    removeInvalid: bool,
    system: System,
    flights: map<Key, nat>,
    callers: map<nat, Phase>,
    lock: Option<nat>)

  datatype Move =
    | Read(caller: nat, name: Token)
    | Enter(caller: nat)
    | Lock(caller: nat)
    | Receive(caller: nat, reply: Reply)
    | Conclude(caller: nat)
    | Remove(caller: nat)
    | Remark(caller: nat)
    | Close(caller: nat)
    | Leave(caller: nat)
    | Elsewhere(event: Event)

  /** The flight of the caller is its own and its outcome is not known to the others yet. */
  predicate IsOwner(ph: Phase) {
    !ph.Ready? && !ph.Waiting?
  }

  predicate HoldsLock(ph: Phase) {
    ph.Requesting? || ph.Answered? || ph.Removing? || ph.Remarking?
  }

  predicate Current(p: Pool, k: Key) {
    k.access in p.accounts && p.accounts[k.access].refreshToken == k.refresh
  }

  ghost predicate CanMove(s: Service, m: Move) {
    match m
    case Read(c, name) =>
      && c !in s.callers
      && var t := ResolveIn(s.system.pool, name);
         t in s.system.pool.accounts && s.system.pool.accounts[t].refreshToken != ""
    case Enter(c) => c in s.callers && s.callers[c].Ready?
    case Lock(c) => c in s.callers && s.callers[c].Owning? && s.lock.None?
    case Receive(c, _) => c in s.callers && s.callers[c].Requesting?
    case Conclude(c) => c in s.callers && s.callers[c].Answered?
    case Remove(c) => c in s.callers && s.callers[c].Removing?
    case Remark(c) => c in s.callers && s.callers[c].Remarking?
    case Close(c) => c in s.callers && s.callers[c].Settled?
    case Leave(c) =>
      && c in s.callers && s.callers[c].Waiting?
      && var k, o := s.callers[c].key, s.callers[c].owner;
         k in s.flights && s.flights[k] == o ==> o in s.callers && s.callers[o].Settled?
    case Elsewhere(event) => Enabled(s.system, event)
  }

  /** The account of the caller's access token is in the pool. */
  predicate Resolves(s: Service, k: Key) {
    ResolveIn(s.system.pool, k.access) in s.system.pool.accounts
  }

  /** Where the caller stands after its move; `Close` and `Leave` end the call. */
  ghost function NextPhase(s: Service, m: Move): Phase
    requires CanMove(s, m) && !m.Elsewhere?
  {
    match m
    case Read(_, name) =>
      var a := s.system.pool.accounts[ResolveIn(s.system.pool, name)];
      Ready(Key(a.accessToken, a.refreshToken))
    case Enter(c) =>
      var k := s.callers[c].key;
      if k in s.flights then Waiting(k, s.flights[k]) else Owning(k)
    case Lock(c) => Requesting(s.callers[c].key)
    case Receive(c, reply) => Answered(s.callers[c].key, reply)
    case Conclude(c) =>
      var k := s.callers[c].key;
      if s.callers[c].reply.Terminal? && s.removeInvalid then Removing(k) else Settled(k)
    case Remove(c) =>
      var k := s.callers[c].key;
      if Resolves(s, k) then Settled(k) else Remarking(k)
    case Remark(c) => Settled(s.callers[c].key)
    case Close(c) => s.callers[c]
    case Leave(c) => s.callers[c]
  }

  ghost function NextSystem(s: Service, m: Move): System
    requires CanMove(s, m)
  {
    match m
    case Conclude(c) => s.system.(pool := ConcludedPool(s.system.pool, s.callers[c].key, s.callers[c].reply))
    case Remove(c) => s.system.(pool := Delete(s.system.pool, {s.callers[c].key.access}))
    case Remark(c) => s.system.(pool := Invalidate(s.system.pool, s.callers[c].key.access))
    case Elsewhere(event) => Step(s.system, event)
    case _ => s.system
  }

  /** What the response of a flight does to the pool: tokens are installed by compare-and-set, a terminal
      failure marks the account that the access token resolves to. */
  function ConcludedPool(p: Pool, k: Key, reply: Reply): Pool {
    match reply
    case Tokens(data) => ApplyTokens(p, k.access, data, Exactly(k.access, k.refresh))
    case Terminal => Invalidate(p, k.access)
    case Transient => p
  }

  ghost function Moved(s: Service, m: Move): Service
    requires CanMove(s, m)
  {
    match m
    case Elsewhere(_) => s.(system := NextSystem(s, m))
    case Leave(c) => s.(callers := s.callers - {c})
    case Close(c) =>
      var k := s.callers[c].key;
      s.(callers := s.callers - {c},
         flights := if k in s.flights && s.flights[k] == c then s.flights - {k} else s.flights)
    case _ =>
      var c, ph := m.caller, NextPhase(s, m);
      s.(system := NextSystem(s, m),
         callers := s.callers[c := ph],
         flights := if m.Enter? && ph.Owning? then s.flights[ph.key := c] else s.flights,
         lock := if HoldsLock(ph) then Some(c) else if s.lock == Some(c) then None else s.lock)
  }

  // ---- Single flight ----

  ghost predicate FlightInv(s: Service) {
    FlightsOk(s.flights, s.callers, s.lock)
  }

  ghost predicate FlightsOk(flights: map<Key, nat>, callers: map<nat, Phase>, lock: Option<nat>) {
    && (forall c :: c in callers && IsOwner(callers[c]) ==> callers[c].key in flights && flights[callers[c].key] == c)
    && (forall k :: k in flights ==> flights[k] in callers && IsOwner(callers[flights[k]]) && callers[flights[k]].key == k)
    && (forall c :: c in callers && HoldsLock(callers[c]) ==> lock == Some(c))
    && (lock.Some? ==> lock.value in callers && HoldsLock(callers[lock.value]))
  }

  /** A change of phase that takes or leaves the lock as the phases say. */
  lemma PhaseChange(flights: map<Key, nat>, callers: map<nat, Phase>, lock: Option<nat>, c: nat, ph: Phase, after: Option<nat>)
    requires FlightsOk(flights, callers, lock)
    requires c in callers ==> ph.key == callers[c].key && (IsOwner(callers[c]) ==> IsOwner(ph))
    requires IsOwner(ph) ==> ph.key in flights && flights[ph.key] == c
    requires HoldsLock(ph) ==> lock.None? || lock == Some(c)
    requires after == if HoldsLock(ph) then Some(c) else if lock == Some(c) then None else lock
    ensures FlightsOk(flights, callers[c := ph], after)
  {
  }

  lemma MoveKeepsFlights(s: Service, m: Move)
    requires FlightInv(s) && CanMove(s, m)
    ensures FlightInv(Moved(s, m))
  {
    match m
    case Enter(c) => EnterKeepsFlights(s.flights, s.callers, s.lock, c);
    case Close(c) => CloseKeepsFlights(s.flights, s.callers, s.lock, c);
    case Leave(c) =>
    case Elsewhere(_) =>
    case _ =>
      PhaseChange(s.flights, s.callers, s.lock, m.caller, NextPhase(s, m), Moved(s, m).lock);
  }

  lemma EnterKeepsFlights(flights: map<Key, nat>, callers: map<nat, Phase>, lock: Option<nat>, c: nat)
    requires FlightsOk(flights, callers, lock) && c in callers && callers[c].Ready?
    ensures var k := callers[c].key;
            if k in flights then FlightsOk(flights, callers[c := Waiting(k, flights[k])], lock)
            else FlightsOk(flights[k := c], callers[c := Owning(k)], lock)
  {
  }

  lemma CloseKeepsFlights(flights: map<Key, nat>, callers: map<nat, Phase>, lock: Option<nat>, c: nat)
    requires FlightsOk(flights, callers, lock) && c in callers && callers[c].Settled?
    ensures FlightsOk(if callers[c].key in flights && flights[callers[c].key] == c then flights - {callers[c].key} else flights,
                      callers - {c}, lock)
  {
  }

  ghost predicate MovesOk(s: Service, ms: seq<Move>)
    decreases ms, 0
  {
    ms == [] || (MovesOk(s, ms[..|ms| - 1]) && CanMove(After(s, ms[..|ms| - 1]), ms[|ms| - 1]))
  }

  ghost function After(s: Service, ms: seq<Move>): Service
    requires MovesOk(s, ms)
    decreases ms, 1
  {
    if ms == [] then s else Moved(After(s, ms[..|ms| - 1]), ms[|ms| - 1])
  }

  ghost predicate Fresh(s: Service) {
    s.flights == map[] && s.callers == map[] && s.lock.None?
  }

  lemma {:induction false} FlightsInEveryRun(s: Service, ms: seq<Move>)
    requires Fresh(s) && MovesOk(s, ms)
    ensures FlightInv(After(s, ms))
  {
    if ms != [] {
      FlightsInEveryRun(s, ms[..|ms| - 1]);
      MoveKeepsFlights(After(s, ms[..|ms| - 1]), ms[|ms| - 1]);
    }
  }

  /** In every run at most one refresh is in flight per credential pair, and at most one request to
      the token endpoint is out at all. */
  lemma SingleFlight(s: Service, ms: seq<Move>, c: nat, d: nat)
    requires Fresh(s) && MovesOk(s, ms)
    requires var n := After(s, ms);
             c in n.callers && d in n.callers && IsOwner(n.callers[c]) && IsOwner(n.callers[d])
    ensures var n := After(s, ms);
            && (n.callers[c].key == n.callers[d].key ==> c == d)
            && (HoldsLock(n.callers[c]) && HoldsLock(n.callers[d]) ==> c == d)
  {
    FlightsInEveryRun(s, ms);
  }

  // ---- Every call ends ----

  /** The move is one of a caller that is under way. */
  predicate IsOwnMove(m: Move) {
    !m.Read? && !m.Elsewhere?
  }

  /** Whoever waits waits for a caller that is under way with the same pair, or may leave. */
  lemma WaitsForOwner(s: Service, c: nat)
    requires FlightInv(s) && c in s.callers && s.callers[c].Waiting? && !CanMove(s, Leave(c))
    ensures var o := s.callers[c].owner;
            o in s.callers && IsOwner(s.callers[o]) && !s.callers[o].Settled? && s.callers[o].key == s.callers[c].key
  {
  }

  /** An owner can move on, or the holder of the request lock can. */
  lemma OwnerCanMove(s: Service, o: nat)
    requires FlightInv(s) && o in s.callers && IsOwner(s.callers[o])
    ensures exists m :: IsOwnMove(m) && CanMove(s, m)
  {
    var c := if s.callers[o].Owning? && s.lock.Some? then s.lock.value else o;
    var ph := s.callers[c];
    if ph.Owning? {
      assert CanMove(s, Lock(c));
    } else if ph.Requesting? {
      assert CanMove(s, Receive(c, Transient));
    } else if ph.Answered? {
      assert CanMove(s, Conclude(c));
    } else if ph.Removing? {
      assert CanMove(s, Remove(c));
    } else if ph.Remarking? {
      assert CanMove(s, Remark(c));
    } else {
      assert CanMove(s, Close(c));
    }
  }

  /** In every run, as long as any call is under way some caller can move: nobody waits for a flight without an
      owner, and the request lock is never left behind. */
  lemma NoDeadlock(s: Service, ms: seq<Move>)
    requires Fresh(s) && MovesOk(s, ms) && After(s, ms).callers != map[]
    ensures exists m :: IsOwnMove(m) && CanMove(After(s, ms), m)
  {
    FlightsInEveryRun(s, ms);
    var n := After(s, ms);
    var c :| c in n.callers;
    if n.callers[c].Ready? {
      assert CanMove(n, Enter(c));
    } else if n.callers[c].Waiting? {
      if CanMove(n, Leave(c)) {
        assert IsOwnMove(Leave(c));
      } else {
        WaitsForOwner(n, c);
        OwnerCanMove(n, n.callers[c].owner);
      }
    } else {
      OwnerCanMove(n, c);
    }
  }

  /** How many moves a caller has left at most. */
  function MovesLeft(ph: Phase): nat {
    match ph
    case Ready(_) => 7
    case Owning(_) => 6
    case Requesting(_) => 5
    case Answered(_, _) => 4
    case Removing(_) => 3
    case Remarking(_) => 2
    case Settled(_) => 1
    case Waiting(_, _) => 1
  }

  ghost function AllMovesLeft(callers: map<nat, Phase>): nat
    decreases |callers|
  {
    if callers == map[] then 0
    else
      var c :| c in callers;
      AllMovesLeft(callers - {c}) + MovesLeft(callers[c])
  }

  lemma {:induction false} MovesLeftOf(callers: map<nat, Phase>, c: nat)
    requires c in callers
    ensures AllMovesLeft(callers) == AllMovesLeft(callers - {c}) + MovesLeft(callers[c])
    decreases |callers|
  {
    var d :| d in callers && AllMovesLeft(callers) == AllMovesLeft(callers - {d}) + MovesLeft(callers[d]);
    if c != d {
      MovesLeftOf(callers - {d}, c);
      MovesLeftOf(callers - {c}, d);
      assert callers - {d} - {c} == callers - {c} - {d};
    }
  }

  lemma MovesLeftWith(callers: map<nat, Phase>, c: nat, ph: Phase)
    ensures AllMovesLeft(callers[c := ph]) == AllMovesLeft(callers - {c}) + MovesLeft(ph)
  {
    MovesLeftOf(callers[c := ph], c);
    assert callers[c := ph] - {c} == callers - {c};
  }

  lemma MovesLower(s: Service, m: Move)
    requires CanMove(s, m) && IsOwnMove(m)
    ensures AllMovesLeft(Moved(s, m).callers) < AllMovesLeft(s.callers)
  {
    MovesLeftOf(s.callers, m.caller);
    if !m.Leave? && !m.Close? {
      MovesLeftWith(s.callers, m.caller, NextPhase(s, m));
    }
  }

  /** Every move of a caller brings all calls nearer to their end, whatever happens elsewhere in between; only a
      new call adds moves. Together with `NoDeadlock` every call ends. */
  lemma MovesRunOut(s: Service, m: Move)
    requires CanMove(s, m)
    ensures IsOwnMove(m) ==> AllMovesLeft(Moved(s, m).callers) < AllMovesLeft(s.callers)
    ensures m.Elsewhere? ==> AllMovesLeft(Moved(s, m).callers) == AllMovesLeft(s.callers)
    ensures m.Read? ==> AllMovesLeft(Moved(s, m).callers) == AllMovesLeft(s.callers) + 7
  {
    if m.Read? {
      MovesLeftWith(s.callers, m.caller, NextPhase(s, m));
      assert s.callers - {m.caller} == s.callers;
    } else if IsOwnMove(m) {
      MovesLower(s, m);
    }
  }

  // ---- What a caller asks for is what it read ----

  /** The caller read this pair in the run, off an account that carried it then. */
  ghost predicate WasRead(s: Service, ms: seq<Move>, c: nat, k: Key)
    requires MovesOk(s, ms)
  {
    ms != [] &&
    var before := After(s, ms[..|ms| - 1]);
    || WasRead(s, ms[..|ms| - 1], c, k)
    || (ms[|ms| - 1].Read? && ms[|ms| - 1].caller == c && Current(before.system.pool, k)
        && k.access == ResolveIn(before.system.pool, ms[|ms| - 1].name))
  }

  lemma InvalidatedPoolOk(p: Pool, name: Token)
    requires PoolOk(p)
    ensures PoolOk(Invalidate(p, name)) && Aliases(Invalidate(p, name)) == Aliases(p)
  {
    if ResolveIn(p, name) in p.accounts {
      PutKeepsPoolOk(p, ResolveIn(p, name), Rejected(p.accounts[ResolveIn(p, name)]).(accessToken := ResolveIn(p, name)));
    }
  }

  lemma MoveKeepsPool(s: Service, m: Move)
    requires PoolOk(s.system.pool) && CanMove(s, m)
    ensures PoolOk(Moved(s, m).system.pool)
  {
    match m
    case Conclude(c) => ConcludedPoolOk(s.system.pool, s.callers[c].key, s.callers[c].reply);
    case Remove(c) => RemovalKeepsPoolOk(s.system.pool, DeleteTargets(s.system.pool, {s.callers[c].key.access}));
    case Remark(c) => InvalidatedPoolOk(s.system.pool, s.callers[c].key.access);
    case Elsewhere(event) => StepKeepsPoolOk(s.system, event);
    case _ =>
  }

  lemma ConcludedPoolOk(p: Pool, k: Key, reply: Reply)
    requires PoolOk(p)
    ensures PoolOk(ConcludedPool(p, k, reply))
  {
    InvalidatedPoolOk(p, k.access);
    if reply.Tokens? {
      StepKeepsPoolOk(System(p, []), Applying(k.access, reply.data, Exactly(k.access, k.refresh)));
    }
  }

  /** In every run the pool stays well formed, and the pair of every caller is one it read. */
  lemma {:induction false} KeysWereRead(s: Service, ms: seq<Move>)
    requires Fresh(s) && PoolOk(s.system.pool) && MovesOk(s, ms)
    ensures PoolOk(After(s, ms).system.pool)
    ensures forall c :: c in After(s, ms).callers ==> WasRead(s, ms, c, After(s, ms).callers[c].key)
  {
    if ms != [] {
      var before, m := After(s, ms[..|ms| - 1]), ms[|ms| - 1];
      KeysWereRead(s, ms[..|ms| - 1]);
      MoveKeepsPool(before, m);
      forall c | c in After(s, ms).callers ensures WasRead(s, ms, c, After(s, ms).callers[c].key) {
        KeyStays(before, m, c);
      }
    }
  }

  lemma KeyStays(s: Service, m: Move, c: nat)
    requires PoolOk(s.system.pool) && CanMove(s, m) && c in Moved(s, m).callers
    ensures if m.Read? && m.caller == c then
              && Current(s.system.pool, Moved(s, m).callers[c].key)
              && Moved(s, m).callers[c].key.access == ResolveIn(s.system.pool, m.name)
            else c in s.callers && Moved(s, m).callers[c].key == s.callers[c].key
  {
  }

  // ---- Compare and set ----

  /** A response is installed if and only if the pair it was requested with is still current and
      its access token is not the key of another account. */
  lemma InstalledIffCurrent(p: Pool, k: Key, data: TokenData)
    requires PoolOk(p)
    ensures ApplyResult(p, k.access, data, Exactly(k.access, k.refresh)).Installed? <==>
            Current(p, k) && (data.access == "" || data.access == k.access || data.access !in p.accounts)
  {
    if k.access in p.accounts {
      LiveResolvesToItself(p, k.access);
    } else {
      ResolvedIsTerminal(p, k.access);
    }
  }

  /** Over all interleavings: the response that the owner of a flight got is installed if and only if the
      pair it read earlier in the run is current at that moment and the new access token is free. */
  lemma ResponseIsInstalledIff(s: Service, ms: seq<Move>, c: nat)
    requires Fresh(s) && PoolOk(s.system.pool) && MovesOk(s, ms) && CanMove(After(s, ms), Conclude(c))
    requires After(s, ms).callers[c].reply.Tokens?
    ensures var p, k := After(s, ms).system.pool, After(s, ms).callers[c].key;
            var data := After(s, ms).callers[c].reply.data;
            && WasRead(s, ms, c, k)
            && (ApplyResult(p, k.access, data, Exactly(k.access, k.refresh)).Installed? <==>
                Current(p, k) && (data.access == "" || data.access == k.access || data.access !in p.accounts))
  {
    KeysWereRead(s, ms);
    InstalledIffCurrent(After(s, ms).system.pool, After(s, ms).callers[c].key, After(s, ms).callers[c].reply.data);
  }

  /** Installing tokens under `name` leaves the record of every other account alone. */
  lemma ApplyTouchesOneAccount(p: Pool, name: Token, data: TokenData, expected: Expected, t: Token)
    requires t in p.accounts && t != ResolveIn(p, name)
    ensures t in ApplyTokens(p, name, data, expected).accounts
    ensures ApplyTokens(p, name, data, expected).accounts[t] == p.accounts[t]
  {
  }

  /** The account `t` carries another pair than `k`. */
  predicate Carries(p: Pool, t: Token, k: Key) {
    t in p.accounts && k == Key(t, p.accounts[t].refreshToken)
  }

  predicate SameRecord(p: Pool, q: Pool, t: Token)
    requires t in p.accounts
  {
    t in q.accounts && q.accounts[t] == p.accounts[t]
  }

  /** Refresh safety over all interleavings. Whenever the owner of a flight handles its response, the
      pair is one it read earlier in the run, and an account that carries another pair by then stays as
      it is, if and only if the response is not a terminal failure whose access token now resolves to
      that account (and which finds it unmarked). */
  lemma LaterCredentialsSurviveIff(s: Service, ms: seq<Move>, c: nat, t: Token)
    requires Fresh(s) && PoolOk(s.system.pool) && MovesOk(s, ms) && CanMove(After(s, ms), Conclude(c))
    requires t in After(s, ms).system.pool.accounts && !Carries(After(s, ms).system.pool, t, After(s, ms).callers[c].key)
    ensures var n, p := After(s, ms), After(s, ms).system.pool;
            var k := n.callers[c].key;
            && WasRead(s, ms, c, k)
            && (SameRecord(p, Moved(n, Conclude(c)).system.pool, t) <==>
                !(n.callers[c].reply.Terminal? && ResolveIn(p, k.access) == t && p.accounts[t] != Rejected(p.accounts[t])))
  {
    KeysWereRead(s, ms);
    ConclusionTouches(After(s, ms).system.pool, After(s, ms).callers[c].key, After(s, ms).callers[c].reply, t);
  }

  lemma ConclusionTouches(p: Pool, k: Key, reply: Reply, t: Token)
    requires PoolOk(p) && t in p.accounts && !Carries(p, t, k)
    ensures SameRecord(p, ConcludedPool(p, k, reply), t) <==>
            !(reply.Terminal? && ResolveIn(p, k.access) == t && p.accounts[t] != Rejected(p.accounts[t]))
  {
    if reply.Tokens? {
      InstalledIffCurrent(p, k, reply.data);
      if Current(p, k) {
        LiveResolvesToItself(p, k.access);
        ApplyTouchesOneAccount(p, k.access, reply.data, Exactly(k.access, k.refresh), t);
      }
    }
  }

  /** A response whose pair is no longer current changes nothing in the pool, if and only if it is not a
      terminal failure whose access token still resolves to an account (that is not marked already). */
  lemma StaleResponseChangesNothingIff(s: Service, ms: seq<Move>, c: nat)
    requires Fresh(s) && PoolOk(s.system.pool) && MovesOk(s, ms) && CanMove(After(s, ms), Conclude(c))
    requires !Current(After(s, ms).system.pool, After(s, ms).callers[c].key)
    ensures var n, p := After(s, ms), After(s, ms).system.pool;
            var t := ResolveIn(p, n.callers[c].key.access);
            Moved(n, Conclude(c)).system.pool == p <==>
            !(n.callers[c].reply.Terminal? && t in p.accounts && p.accounts[t] != Rejected(p.accounts[t]))
  {
    KeysWereRead(s, ms);
    StaleConclusion(After(s, ms).system.pool, After(s, ms).callers[c].key, After(s, ms).callers[c].reply);
  }

  lemma StaleConclusion(p: Pool, k: Key, reply: Reply)
    requires PoolOk(p) && !Current(p, k)
    ensures var t := ResolveIn(p, k.access);
            ConcludedPool(p, k, reply) == p <==> !(reply.Terminal? && t in p.accounts && p.accounts[t] != Rejected(p.accounts[t]))
  {
    if reply.Tokens? {
      InstalledIffCurrent(p, k, reply.data);
    }
    if ResolveIn(p, k.access) in p.accounts {
      assert p.accounts[ResolveIn(p, k.access)].accessToken == ResolveIn(p, k.access);
    }
  }

  /** The deletion after a terminal failure takes the account that the access token resolves to by then,
      and no other one, whatever pair it carries. */
  lemma RemovalTakesOneAccount(s: Service, ms: seq<Move>, c: nat, t: Token)
    requires Fresh(s) && PoolOk(s.system.pool) && MovesOk(s, ms) && CanMove(After(s, ms), Remove(c))
    requires t in After(s, ms).system.pool.accounts
    ensures var n, p := After(s, ms), After(s, ms).system.pool;
            SameRecord(p, Moved(n, Remove(c)).system.pool, t) <==> ResolveIn(p, n.callers[c].key.access) != t
  {
    KeysWereRead(s, ms);
    DeletionTakes(After(s, ms).system.pool, After(s, ms).callers[c].key.access, t);
  }

  lemma DeletionTakes(p: Pool, name: Token, t: Token)
    requires PoolOk(p) && t in p.accounts
    ensures SameRecord(p, Delete(p, {name}), t) <==> ResolveIn(p, name) != t
  {
    if name == "" {
      ResolveTerminal(Aliases(p), name);
    } else {
      assert ResolveIn(p, name) in DeleteTargets(p, {name});
    }
    assert forall x :: x in DeleteTargets(p, {name}) ==> x == ResolveIn(p, name);
  }

  // ---- A stale failure that marks newer credentials ----

  /** A caller reads a pair and asks for tokens, the account is given a new refresh token meanwhile, and
      the answer is that the old one is dead. */
  function StaleFailure(c: nat, t: Token, renewed: string): seq<Move> {
    [Read(c, t)] + [Enter(c)] + [Lock(c)] +
    [Elsewhere(Applying(t, TokenData("", Some(renewed), None), Anything))] +
    [Receive(c, Terminal)] + [Conclude(c)]
  }

  lemma MovesExtend(s: Service, ms: seq<Move>, m: Move)
    requires MovesOk(s, ms) && CanMove(After(s, ms), m)
    ensures MovesOk(s, ms + [m]) && After(s, ms + [m]) == Moved(After(s, ms), m)
  {
    assert (ms + [m])[..|ms|] == ms;
  }

  /** From any fresh service, any account with a refresh token: the run is possible, and it ends with the
      new credentials on an account that is marked abnormal, or that is about to be deleted. */
  lemma StaleFailureMarksNewCredentials(s: Service, c: nat, t: Token, renewed: string)
    requires Fresh(s) && PoolOk(s.system.pool) && t in s.system.pool.accounts
    requires s.system.pool.accounts[t].refreshToken !in {"", renewed}
    ensures MovesOk(s, StaleFailure(c, t, renewed))
    ensures var n := After(s, StaleFailure(c, t, renewed));
            && t in n.system.pool.accounts && n.system.pool.accounts[t].refreshToken == renewed
            && n.system.pool.accounts[t].status.Abnormal? && n.system.pool.accounts[t].quota == 0
            && (s.removeInvalid ==> CanMove(n, Remove(c)))
  {
    RequestGoesOut(s, c, t);
    var event := Applying(t, TokenData("", Some(renewed), None), Anything);
    var ms := [Read(c, t)] + [Enter(c)] + [Lock(c)];
    LiveResolvesToItself(s.system.pool, t);
    MovesExtend(s, ms, Elsewhere(event));
    FailureComesBack(s, ms + [Elsewhere(event)], c, t, renewed);
  }

  lemma RequestGoesOut(s: Service, c: nat, t: Token)
    requires Fresh(s) && PoolOk(s.system.pool) && t in s.system.pool.accounts && s.system.pool.accounts[t].refreshToken != ""
    ensures var ms := [Read(c, t)] + [Enter(c)] + [Lock(c)];
            && MovesOk(s, ms) && After(s, ms).system == s.system && c in After(s, ms).callers
            && After(s, ms).callers[c] == Requesting(Key(t, s.system.pool.accounts[t].refreshToken))
            && After(s, ms).removeInvalid == s.removeInvalid
  {
    LiveResolvesToItself(s.system.pool, t);
    var ms: seq<Move> := [];
    MovesExtend(s, ms, Read(c, t));
    assert ms + [Read(c, t)] == [Read(c, t)];
    MovesExtend(s, [Read(c, t)], Enter(c));
    MovesExtend(s, [Read(c, t)] + [Enter(c)], Lock(c));
  }

  lemma FailureComesBack(s: Service, ms: seq<Move>, c: nat, t: Token, renewed: string)
    requires MovesOk(s, ms) && t in After(s, ms).system.pool.accounts && After(s, ms).system.pool.accounts[t].refreshToken == renewed
    requires c in After(s, ms).callers && After(s, ms).callers[c].Requesting? && After(s, ms).callers[c].key.access == t
    requires After(s, ms).removeInvalid == s.removeInvalid
    ensures MovesOk(s, ms + [Receive(c, Terminal)] + [Conclude(c)])
    ensures var n := After(s, ms + [Receive(c, Terminal)] + [Conclude(c)]);
            && t in n.system.pool.accounts && n.system.pool.accounts[t].refreshToken == renewed
            && n.system.pool.accounts[t].status.Abnormal? && n.system.pool.accounts[t].quota == 0
            && (s.removeInvalid ==> CanMove(n, Remove(c)))
  {
    LiveResolvesToItself(After(s, ms).system.pool, t);
    MovesExtend(s, ms, Receive(c, Terminal));
    MovesExtend(s, ms + [Receive(c, Terminal)], Conclude(c));
  }
}
