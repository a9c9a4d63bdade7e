/** What one caller may rely on while others run: the leases it holds, their accounts, and which steps of
    the others keep them. */
module CallerView {
  import opened AliasGraph
  import opened AccountPool
  import opened SlotConservation

  ghost predicate Owns(s: System, me: nat, id: nat) {
    id < |s.leases| && s.leases[id].owner == me
  }

  ghost predicate Holds(s: System, me: nat, id: nat) {
    Owns(s, me, id) && s.leases[id].held
  }

  /** The slots that a caller has not given back. */
  ghost function Outstanding(s: System, me: nat): set<nat> {
    set i: nat | i < |s.leases| && Holds(s, me, i)
  }

  ghost function AccountOf(s: System, id: nat): Token
    requires id < |s.leases|
  {
    ResolveIn(s.pool, s.leases[id].token)
  }

  /** The account of the lease is in the pool. */
  ghost predicate Live(s: System, id: nat) {
    id < |s.leases| && AccountOf(s, id) in s.pool.accounts
  }

  ghost predicate SameLease(a: Lease, b: Lease) {
    a.owner == b.owner && a.token == b.token && a.held == b.held && a.names <= b.names
  }

  /** What a caller's leases keep while it neither takes nor gives back a slot: they are the same leases,
      and an account that is gone does not come back under them. */
  ghost predicate Kept(a: System, b: System, me: nat) {
    && SlotInv(b) && |a.leases| <= |b.leases|
    && (forall i :: 0 <= i < |a.leases| && a.leases[i].owner == me ==> SameLease(a.leases[i], b.leases[i]))
    && (forall i :: 0 <= i < |b.leases| && b.leases[i].owner == me ==> i < |a.leases| && a.leases[i].owner == me)
    && (forall i: nat :: Holds(a, me, i) && Live(b, i) ==> Live(a, i))
  }

  /** What survives when nobody deletes the account of the lease either. */
  ghost predicate Undisturbed(a: System, b: System, me: nat, id: nat) {
    Kept(a, b, me) && (Holds(a, me, id) && Live(a, id) ==> Live(b, id))
  }

  /** A step of another caller: enabled, using new tokens for imports and rotations, and not touching the
      leases of `me`. */
  ghost predicate Polite(s: System, e: Event, me: nat) {
    && Enabled(s, e) && SlotSafe(s, e)
    && (Rotates(s.pool, e) ==> NoLeaseVisits(s, RotatedTo(s.pool, e)))
    && (e.Settling? || e.Naming? ==> !Owns(s, me, e.lease))
    && (e.Acquiring? ==> e.owner != me)
  }

  /** The step does not delete the account of the lease. */
  ghost predicate Sparing(s: System, e: Event, me: nat, id: nat) {
    Holds(s, me, id) && Live(s, id) ==> Live(Step(s, e), id)
  }

  ghost predicate PoliteRun(s: System, es: seq<Event>, me: nat, id: nat) {
    forall i :: 0 <= i < |es| ==> Polite(Run(s, es[..i]), es[i], me) && Sparing(Run(s, es[..i]), es[i], me, id)
  }

  lemma KeptTransitive(a: System, b: System, c: System, me: nat)
    requires Kept(a, b, me) && Kept(b, c, me)
    ensures Kept(a, c, me)
  {
    forall i: nat | Holds(a, me, i) && Live(c, i) ensures Live(a, i) {
      assert Holds(b, me, i);
    }
  }

  lemma UndisturbedTransitive(a: System, b: System, c: System, me: nat, id: nat)
    requires Undisturbed(a, b, me, id) && Undisturbed(b, c, me, id)
    ensures Undisturbed(a, c, me, id)
  {
    KeptTransitive(a, b, c, me);
  }

  lemma KeptOutstanding(a: System, b: System, me: nat)
    requires Kept(a, b, me)
    ensures Outstanding(b, me) == Outstanding(a, me)
  {
    forall i: nat ensures Holds(b, me, i) <==> Holds(a, me, i) {
      if Owns(a, me, i) {
        assert SameLease(a.leases[i], b.leases[i]);
      }
    }
  }

  /** How a step changes the alias graph. */
  datatype Change = Same | Joined(token: Token) | Turned(retired: Token, successor: Token) | Cut(gone: set<Token>)

  ghost predicate ChangesTo(g: Graph, h: Graph, c: Change) {
    match c
    case Same => h == g
    case Joined(t) => h == Imported(g, t)
    case Turned(t, n) => h == Rotated(g, t, n) && t in g.live && n !in g.live
    case Cut(gone) =>
      && h == Forgotten(g, gone)
      && (forall x :: x in gone ==> !Hops(g, x))
      && (forall l :: Resolve(g, l) in gone ==> Resolve(h, l) !in h.live)
  }

  ghost function CutIf(b: bool, gone: set<Token>): Change {
    if b then Cut(gone) else Same
  }

  ghost function GraphChange(s: System, e: Event): Change {
    var p := s.pool;
    match e
    case Settling(_, name, how) =>
      CutIf(how == Exhausted(true) && ResolveIn(p, name) in p.accounts, {ResolveIn(p, name)})
    case Updating(name, a, autoRemove) =>
      CutIf(autoRemove && a.status.Limited? && ResolveIn(p, name) in p.accounts, {ResolveIn(p, name)})
    case Deleting(names) => Cut(DeleteTargets(p, names))
    case Importing(t, _) => Joined(t)
    case Reimporting(existing, t, _) => Turned(existing, t)
    case Applying(name, _, _) => if Rotates(p, e) then Turned(ResolveIn(p, name), RotatedTo(p, e)) else Same
    case _ => Same
  }

  lemma GraphStep(s: System, e: Event)
    requires PoolOk(s.pool) && Enabled(s, e)
    ensures ChangesTo(Aliases(s.pool), Aliases(StepPool(s.pool, e)), GraphChange(s, e))
  {
    match e
    case Settling(_, name, how) => SettledGraph(s.pool, name, how);
    case Updating(name, a, autoRemove) => UpdatedGraph(s.pool, name, a, autoRemove);
    case Deleting(names) => DeletedGraph(s.pool, names);
    case Importing(t, a) => ImportedPoolOk(s.pool, t, a);
    case Reimporting(existing, t, a) => ReimportedPoolOk(s.pool, existing, t, a);
    case Applying(_, _, _) => AppliedGraph(s, e);
    case Acquiring(_, f, excluded) => SamePoolOk(s.pool, Acquire(s.pool, f, excluded));
    case Naming(_, _) =>
    case _ => QueueStepsKeepPool(s.pool, e);
  }

  lemma CutGraph(p: Pool, gone: set<Token>)
    requires PoolOk(p) && forall x :: x in gone ==> !Hops(Aliases(p), x)
    ensures ChangesTo(Aliases(p), Aliases(RemoveAll(p, gone)), Cut(gone))
  {
    RemovalKeepsPoolOk(p, gone);
    forall l | Resolve(Aliases(p), l) in gone
      ensures Resolve(Forgotten(Aliases(p), gone), l) !in Forgotten(Aliases(p), gone).live
    {
      DeletionRedirects(Aliases(p), gone, l);
    }
  }

  lemma SettledGraph(p: Pool, name: Token, how: Settlement)
    requires PoolOk(p)
    ensures ChangesTo(Aliases(p), Aliases(Settle(p, name, how)),
                      CutIf(how == Exhausted(true) && ResolveIn(p, name) in p.accounts, {ResolveIn(p, name)}))
  {
    var t := ResolveIn(p, name);
    match how
    case Plain => SamePoolOk(p, ReleaseSlot(p, name));
    case Marked(o) =>
      SamePoolOk(p, ReleaseSlot(p, t));
      if t in p.accounts {
        PutKeepsPoolOk(ReleaseSlot(p, t), t, Charged(p.accounts[t], o));
      }
    case Exhausted(autoRemove) => ExhaustedGraph(p, t, autoRemove);
  }

  lemma ExhaustedGraph(p: Pool, t: Token, autoRemove: bool)
    requires PoolOk(p)
    ensures Aliases(ReleaseSlot(p, t)) == Aliases(p)
    ensures t in p.accounts ==>
              ChangesTo(Aliases(p), Aliases(RemoveAll(ReleaseSlot(p, t), {t})), Cut({t}))
    ensures t in p.accounts ==>
              var a := p.accounts[t].(status := Limited, quota := 0, quotaUnknown := false);
              Aliases(PutAccount(ReleaseSlot(p, t), t, a)) == Aliases(p)
  {
    SamePoolOk(p, ReleaseSlot(p, t));
    if t in p.accounts {
      CutGraph(ReleaseSlot(p, t), {t});
      PutKeepsPoolOk(ReleaseSlot(p, t), t, p.accounts[t].(status := Limited, quota := 0, quotaUnknown := false));
    }
  }

  lemma UpdatedGraph(p: Pool, name: Token, a: Account, autoRemove: bool)
    requires PoolOk(p)
    ensures ChangesTo(Aliases(p), Aliases(UpdateAccount(p, name, a, autoRemove)),
                      CutIf(autoRemove && a.status.Limited? && ResolveIn(p, name) in p.accounts, {ResolveIn(p, name)}))
  {
    var t := ResolveIn(p, name);
    ResolvedIsTerminal(p, name);
    if t in p.accounts {
      CutGraph(p, {t});
      PutKeepsPoolOk(p, t, a.(accessToken := t));
    }
  }

  lemma DeletedGraph(p: Pool, names: set<Token>)
    requires PoolOk(p)
    ensures ChangesTo(Aliases(p), Aliases(Delete(p, names)), Cut(DeleteTargets(p, names)))
  {
    forall x | x in DeleteTargets(p, names) ensures !Hops(Aliases(p), x) {
      var t :| t in names && t != "" && x == ResolveIn(p, t);
      ResolvedIsTerminal(p, t);
    }
    CutGraph(p, DeleteTargets(p, names));
  }

  lemma AppliedGraph(s: System, e: Event)
    requires PoolOk(s.pool) && e.Applying?
    ensures ChangesTo(Aliases(s.pool), Aliases(StepPool(s.pool, e)), GraphChange(s, e))
  {
    if Rotates(s.pool, e) {
      RotationEffect(s, e);
    } else if ApplyResult(s.pool, e.name, e.data, e.expected).Installed? {
      var t := ResolveIn(s.pool, e.name);
      PutKeepsPoolOk(s.pool, t, Refreshed(s.pool.accounts[t], t, e.data));
    }
  }

  /** An account that is gone does not come back under a token that no polite step may use. */
  lemma DeadStaysDead(g: Graph, h: Graph, c: Change, t: Token)
    requires NoDeadCycle(g) && ChangesTo(g, h, c) && "" !in g.live
    requires c.Joined? ==> c.token in g.live || !Visits(g, t, c.token)
    requires c.Turned? ==> c.successor != "" && !Visits(g, t, c.successor)
    ensures Resolve(h, t) in h.live ==> Resolve(g, t) in g.live
  {
    match c
    case Same =>
    case Joined(x) =>
      if x in g.live {
        assert h == g;
      } else {
        UnvisitedImport(g, x, t);
      }
    case Turned(x, n) => ThroughRotation(g, x, n, t);
    case Cut(gone) => DeletionRedirects(g, gone, t);
  }

  lemma PoliteStepLeases(s: System, e: Event, me: nat)
    requires Polite(s, e, me)
    ensures |s.leases| <= |Step(s, e).leases|
    ensures forall i :: 0 <= i < |s.leases| && s.leases[i].owner == me ==> SameLease(s.leases[i], Step(s, e).leases[i])
    ensures forall i :: 0 <= i < |Step(s, e).leases| && Step(s, e).leases[i].owner == me ==> i < |s.leases| && s.leases[i].owner == me
  {
  }

  lemma PoliteStep(s: System, e: Event, me: nat)
    requires SlotInv(s) && Polite(s, e, me)
    ensures Kept(s, Step(s, e), me)
  {
    StepKeepsSlots(s, e);
    PoliteStepLeases(s, e, me);
    forall i: nat | Holds(s, me, i) && Live(Step(s, e), i) ensures Live(s, i) {
      PoliteStepKeepsDead(s, e, s.leases[i]);
    }
  }

  lemma PoliteStepKeepsDead(s: System, e: Event, l: Lease)
    requires SlotInv(s) && Enabled(s, e) && SlotSafe(s, e) && l in s.leases && l.held
    requires Rotates(s.pool, e) ==> NoLeaseVisits(s, RotatedTo(s.pool, e))
    ensures ResolveIn(StepPool(s.pool, e), l.token) in StepPool(s.pool, e).accounts ==> ResolveIn(s.pool, l.token) in s.pool.accounts
  {
    GraphStep(s, e);
    assert IsName(l, l.token);
    if Rotates(s.pool, e) {
      RotationEffect(s, e);
    }
    DeadStaysDead(Aliases(s.pool), Aliases(StepPool(s.pool, e)), GraphChange(s, e), l.token);
  }

  lemma {:induction false} PoliteRunKeeps(s: System, es: seq<Event>, me: nat, id: nat)
    requires SlotInv(s) && PoliteRun(s, es, me, id)
    ensures Undisturbed(s, Run(s, es), me, id)
  {
    if es != [] {
      var n := |es| - 1;
      forall i | 0 <= i < n
        ensures Polite(Run(s, es[..n][..i]), es[..n][i], me) && Sparing(Run(s, es[..n][..i]), es[..n][i], me, id)
      {
        assert es[..n][..i] == es[..i];
      }
      PoliteRunKeeps(s, es[..n], me, id);
      PoliteStep(Run(s, es[..n]), es[n], me);
      UndisturbedTransitive(s, Run(s, es[..n]), Run(s, es), me, id);
    }
  }

  /** A name of the lease resolves to the account of the lease, as long as that is in the pool. */
  lemma NameResolves(s: System, me: nat, id: nat, name: Token)
    requires SlotInv(s) && Holds(s, me, id) && IsName(s.leases[id], name)
    ensures Agreed(Aliases(s.pool), s.leases[id].token, name)
    ensures Live(s, id) <==> ResolveIn(s.pool, name) in s.pool.accounts
    ensures Live(s, id) ==> ResolveIn(s.pool, name) == AccountOf(s, id)
  {
    assert s.leases[id] in s.leases;
  }

  /** What a name resolves to may be given as a name of the lease too. */
  lemma ResolvedIsAgreed(s: System, me: nat, id: nat, name: Token)
    requires SlotInv(s) && Holds(s, me, id) && IsName(s.leases[id], name)
    ensures Enabled(s, Naming(id, ResolveIn(s.pool, name)))
  {
    NameResolves(s, me, id, name);
    ResolvedIsTerminal(s.pool, name);
  }

  lemma UpdateIsPolite(s: System, name: Token, a: Account, autoRemove: bool, me: nat, id: nat)
    requires SlotInv(s)
    ensures Polite(s, Updating(name, a, autoRemove), me)
    ensures !(a.status.Limited? && autoRemove) ==> Sparing(s, Updating(name, a, autoRemove), me, id)
  {
    UpdatedGraph(s.pool, name, a, autoRemove);
  }

  lemma ApplyIsSparing(s: System, e: Event, me: nat, id: nat)
    requires SlotInv(s) && e.Applying?
    requires Rotates(s.pool, e) ==> NoLeaseVisits(s, RotatedTo(s.pool, e))
    ensures Polite(s, e, me) && Sparing(s, e, me, id)
  {
    AppliedGraph(s, e);
    if Live(s, id) && Rotates(s.pool, e) {
      RotationEffect(s, e);
      RotationRedirects(Aliases(s.pool), ResolveIn(s.pool, e.name), RotatedTo(s.pool, e), s.leases[id].token);
    }
  }
}
