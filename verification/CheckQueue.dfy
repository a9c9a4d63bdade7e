/** The queue of account checks that follows failed image requests: its invariant over every
    interleaving of the lock regions, what a forced request is promised, and the slot that a check
    loses when its token is rotated. */
module CheckQueue {
  import opened Sequences
  import opened AliasGraph
  import opened AccountPool
  import opened SlotConservation

  ghost predicate QueueInv(p: Pool) {
    QueueOk(Aliases(p), p.pending, p.pendingSet, p.active, p.rerun)
  }

  ghost predicate QueueOk(g: Graph, pending: seq<Token>, pendingSet: set<Token>, active: set<Token>, rerun: set<Token>) {
    && pendingSet == Elements(pending)
    && NoDuplicates(pending)
    && |active| <= MAX_CHECKS
    && rerun <= active
    && pendingSet !! active
    && "" !in pendingSet + active
    && forall t :: t in pendingSet + active ==> !Hops(g, t)
  }

  /** The tokens of the queue are resolved already, so no account is both pending and active, under
      whatever tokens the two entries were made. */
  lemma NoAccountPendingAndActive(p: Pool, x: Token, y: Token)
    requires QueueInv(p) && x in p.pending && y in p.active
    ensures ResolveIn(p, x) != ResolveIn(p, y)
  {
    assert x in p.pendingSet + p.active && y in p.pendingSet + p.active;
    ResolveTerminal(Aliases(p), x);
    ResolveTerminal(Aliases(p), y);
  }

  // ---- Steps ----

  /** Steps that leave the queue alone keep its invariant when no token of the queue gains a
      replacement. */
  lemma FrameQueue(p: Pool, q: Pool)
    requires QueueInv(p)
    requires q.pending == p.pending && q.pendingSet == p.pendingSet && q.active == p.active && q.rerun == p.rerun
    requires forall t :: t in p.pendingSet + p.active && !Hops(Aliases(p), t) ==> !Hops(Aliases(q), t)
    ensures QueueInv(q)
  {
  }

  lemma RemovalQueue(p: Pool, gone: set<Token>)
    requires QueueInv(p)
    ensures QueueInv(RemoveAll(p, gone))
  {
    var q := RemoveAll(p, gone);
    forall t | !Hops(Aliases(p), t) ensures !Hops(Aliases(q), t) {
      assert t in q.aliases ==> t in p.aliases && t !in gone;
    }
    FrameQueue(p, q);
  }

  lemma ReleasedQueue(p: Pool, name: Token)
    requires QueueInv(p)
    ensures QueueInv(ReleaseSlot(p, name))
  {
    FrameQueue(p, ReleaseSlot(p, name));
  }

  lemma SettleQueue(p: Pool, name: Token, how: Settlement)
    requires PoolOk(p) && QueueInv(p)
    ensures QueueInv(Settle(p, name, how))
  {
    var t := ResolveIn(p, name);
    var q := ReleaseSlot(p, t);
    ReleasedQueue(p, name);
    ReleasedQueue(p, t);
    if t in p.accounts {
      match how
      case Plain =>
      case Marked(outcome) => PutQueue(q, t, Charged(p.accounts[t], outcome));
      case Exhausted(autoRemove) =>
        RemovalQueue(q, {t});
        PutQueue(q, t, p.accounts[t].(status := Limited, quota := 0, quotaUnknown := false));
    }
  }

  lemma PutQueue(p: Pool, t: Token, a: Account)
    requires QueueInv(p)
    ensures QueueInv(PutAccount(p, t, a))
  {
    assert PutAccount(p, t, a).accounts.Keys == p.accounts.Keys + {t};
    FrameQueue(p, PutAccount(p, t, a));
  }

  lemma ScheduleQueue(p: Pool, name: Token, force: bool, now: int, pick: Token)
    requires PoolOk(p) && QueueInv(p) && Enabled(System(p, []), Scheduling(name, force, now, pick))
    ensures QueueInv(Schedule(p, name, force, now, pick))
  {
    var t := ResolveIn(p, name);
    ResolvedIsTerminal(p, name);
    var q := p.(startedAt := Remembered(p, now));
    FrameQueue(p, q);
    if name != "" {
      if t in p.pendingSet || ActiveFor(p, t) != {} {
        RerunQueue(q, pick);
      } else {
        ResolvedNonEmpty(p, name);
        assert t !in p.active by {
          assert t in p.active ==> t in ActiveFor(p, t);
        }
        AppendQueue(q, t);
      }
    }
  }

  lemma RerunQueue(p: Pool, t: Token)
    requires QueueInv(p)
    ensures t in p.active ==> QueueInv(p.(rerun := p.rerun + {t}))
  {
    var q := p.(rerun := p.rerun + {t});
    assert Aliases(q) == Aliases(p);
  }

  lemma AppendQueue(p: Pool, t: Token)
    requires QueueInv(p) && t != "" && t !in p.pendingSet && t !in p.active && !Hops(Aliases(p), t)
    ensures QueueInv(p.(pending := p.pending + [t], pendingSet := p.pendingSet + {t}))
  {
    var q := p.(pending := p.pending + [t], pendingSet := p.pendingSet + {t});
    assert Aliases(q) == Aliases(p);
  }

  lemma ResolvedNonEmpty(p: Pool, name: Token)
    requires PoolOk(p) && name != ""
    ensures ResolveIn(p, name) != ""
  {
    var w := ResolveWalk(Aliases(p), name);
    if |w| > 1 {
      assert w[|w| - 2 + 1] == p.aliases[w[|w| - 2]];
    }
  }

  lemma HeadOnce(s: seq<Token>)
    requires NoDuplicates(s) && s != []
    ensures s[0] !in s[1..] && NoDuplicates(s[1..]) && Elements(s[1..]) == Elements(s) - {s[0]}
  {
    assert s == [s[0]] + s[1..];
  }

  lemma FirstBecomesActive(g: Graph, pending: seq<Token>, pendingSet: set<Token>, active: set<Token>, rerun: set<Token>)
    requires QueueOk(g, pending, pendingSet, active, rerun) && pending != [] && |active| < MAX_CHECKS
    ensures QueueOk(g, pending[1..], pendingSet - {pending[0]}, active + {pending[0]}, rerun)
  {
    var t := pending[0];
    HeadOnce(pending);
    assert t in pendingSet;
    assert pendingSet - {t} + (active + {t}) == pendingSet + active;
  }

  lemma StartQueue(p: Pool, now: int)
    requires QueueInv(p)
    ensures QueueInv(Start(p, now))
  {
    if p.pending != [] && |p.active| < MAX_CHECKS {
      FirstBecomesActive(Aliases(p), p.pending, p.pendingSet, p.active, p.rerun);
      assert Aliases(Start(p, now)) == Aliases(p);
    }
  }

  lemma FinishQueue(p: Pool, t: Token)
    requires QueueInv(p)
    ensures QueueInv(Finish(p, t))
  {
    LeaveQueue(p, t);
    var q := p.(active := p.active - {t}, rerun := p.rerun - {t});
    if t in p.rerun {
      assert t in p.pendingSet + p.active;
      ResolveTerminal(Aliases(p), t);
      if t != "" && t !in p.pendingSet {
        AppendQueue(q, t);
      }
    }
  }

  lemma LeaveQueue(p: Pool, t: Token)
    requires QueueInv(p)
    ensures QueueInv(p.(active := p.active - {t}, rerun := p.rerun - {t}))
  {
    var q := p.(active := p.active - {t}, rerun := p.rerun - {t});
    assert Aliases(q) == Aliases(p);
    SubsetSize(q.active, p.active);
  }

  /** What a rotation does to the queue. */
  lemma RotationOnQueue(p: Pool, e: Event)
    requires Rotates(p, e)
    ensures var t, n, q := ResolveIn(p, e.name), RotatedTo(p, e), StepPool(p, e);
            && q.active == Renamed(p.active, t, n) && q.rerun == Renamed(p.rerun, t, n)
            && q.pending == RotateQueue(p, t, n).pending && q.pendingSet == RotateQueue(p, t, n).pendingSet
  {
  }

  lemma RenamedSeqElements(s: seq<Token>, old_: Token, new_: Token)
    ensures NoDuplicates(RenamedSeq(s, old_, new_))
    ensures Elements(RenamedSeq(s, old_, new_)) == Renamed(Elements(s), old_, new_)
  {
    var r := Replaced(s, old_, new_);
    DistinctNoDuplicates(r);
    forall x ensures x in r <==> x in Renamed(Elements(s), old_, new_) {
      if x in r {
        var i :| 0 <= i < |r| && r[i] == x;
        assert s[i] in s;
      }
      if x in s && x != old_ {
        var i :| 0 <= i < |s| && s[i] == x;
        assert r[i] == x;
      }
      if old_ in s {
        var i :| 0 <= i < |s| && s[i] == old_;
        assert r[i] == new_;
      }
    }
  }

  /** The renamed account and an entry under its new token would meet in the two halves. */
  predicate Collides(p: Pool, t: Token, n: Token) {
    (t in p.pendingSet && n in p.active) || (t in p.active && n in p.pendingSet)
  }

  /** A rotation keeps the queue if and only if the new token was not already queued in the other
      half than the account it now stands for. */
  lemma RotationKeepsQueueIff(s: System, e: Event)
    requires PoolOk(s.pool) && QueueInv(s.pool) && Rotates(s.pool, e)
    ensures QueueInv(StepPool(s.pool, e)) <==> !Collides(s.pool, ResolveIn(s.pool, e.name), RotatedTo(s.pool, e))
  {
    var p := s.pool;
    var t, n, q := ResolveIn(p, e.name), RotatedTo(p, e), StepPool(p, e);
    RotationEffect(s, e);
    RotationOnQueue(p, e);
    RotatedQueueIff(p, t, n, q);
  }

  lemma RotatedQueueIff(p: Pool, t: Token, n: Token, q: Pool)
    requires QueueInv(p) && t in p.accounts && n != "" && n !in p.accounts
    requires Aliases(q) == Rotated(Aliases(p), t, n)
    requires q.active == Renamed(p.active, t, n) && q.rerun == Renamed(p.rerun, t, n)
    requires q.pending == RotateQueue(p, t, n).pending && q.pendingSet == RotateQueue(p, t, n).pendingSet
    ensures QueueInv(q) <==> !Collides(p, t, n)
  {
    RenamedSeqElements(p.pending, t, n);
    assert q.pendingSet == Renamed(p.pendingSet, t, n) == Elements(q.pending);
    RenamedStaysSmall(p.active, t, n);
    assert q.rerun <= q.active;
    RenamedQueueResolved(p, t, n, q);
    RenamedDisjointIff(p.pendingSet, p.active, t, n);
  }

  lemma RenamedStaysSmall(a: set<Token>, t: Token, n: Token)
    ensures |Renamed(a, t, n)| <= |a|
  {
  }

  lemma RenamedDisjointIff(a: set<Token>, b: set<Token>, t: Token, n: Token)
    requires a !! b && t != n
    ensures Renamed(a, t, n) !! Renamed(b, t, n) <==> !((t in a && n in b) || (t in b && n in a))
  {
  }

  lemma RenamedQueueResolved(p: Pool, t: Token, n: Token, q: Pool)
    requires QueueInv(p) && t in p.accounts && n != "" && n !in p.accounts
    requires Aliases(q) == Rotated(Aliases(p), t, n)
    requires q.active == Renamed(p.active, t, n) && q.pendingSet == Renamed(p.pendingSet, t, n)
    ensures "" !in q.pendingSet + q.active
    ensures forall x :: x in q.pendingSet + q.active ==> !Hops(Aliases(q), x)
  {
    forall x | x in q.pendingSet + q.active ensures !Hops(Aliases(q), x) && x != "" {
      assert x == n || (x != t && x in p.pendingSet + p.active);
      assert x != n ==> !Hops(Aliases(p), x);
    }
  }

  /** Re-importing a Firefly identity keeps the queue if and only if its old token is not queued. */
  lemma ReimportKeepsQueueIff(p: Pool, existing: Token, t: Token, a: Account)
    requires PoolOk(p) && QueueInv(p) && t != "" && existing in p.accounts && t !in p.accounts
    ensures QueueInv(Reimport(p, existing, t, a)) <==> existing !in p.pendingSet + p.active
  {
    var q := Reimport(p, existing, t, a);
    ReimportedPoolOk(p, existing, t, a);
    if existing in p.pendingSet + p.active {
      assert existing in q.pendingSet + q.active && Hops(Aliases(q), existing);
    } else {
      forall x | x in p.pendingSet + p.active && !Hops(Aliases(p), x) ensures !Hops(Aliases(q), x) {
      }
      FrameQueue(p, q);
    }
  }

  // ---- Every run ----

  ghost predicate QueueSafe(s: System, e: Event) {
    match e
    case Reimporting(existing, _, _) => existing !in s.pool.pendingSet + s.pool.active
    case Applying(name, _, _) =>
      Rotates(s.pool, e) ==> !Collides(s.pool, ResolveIn(s.pool, name), RotatedTo(s.pool, e))
    case _ => true
  }

  lemma StepKeepsQueue(s: System, e: Event)
    requires PoolOk(s.pool) && QueueInv(s.pool) && Enabled(s, e) && QueueSafe(s, e)
    ensures QueueInv(StepPool(s.pool, e))
  {
    var p := s.pool;
    match e
    case Acquiring(_, f, excluded) => FrameQueue(p, Acquire(p, f, excluded));
    case Naming(_, _) =>
    case Settling(_, name, how) => SettleQueue(p, name, how);
    case Updating(name, a, autoRemove) => UpdateQueue(p, name, a, autoRemove);
    case Deleting(names) => RemovalQueue(p, DeleteTargets(p, names));
    case Importing(t, a) => PutQueue(p, t, a.(accessToken := t));
    case Reimporting(existing, t, a) => ReimportKeepsQueueIff(p, existing, t, a);
    case Applying(_, _, _) => ApplyQueue(s, e);
    case Scheduling(name, force, now, pick) => ScheduleQueue(p, name, force, now, pick);
    case Starting(now) => StartQueue(p, now);
    case Finishing(t) => FinishQueue(p, t);
  }

  lemma UpdateQueue(p: Pool, name: Token, a: Account, autoRemove: bool)
    requires QueueInv(p)
    ensures QueueInv(UpdateAccount(p, name, a, autoRemove))
  {
    var t := ResolveIn(p, name);
    RemovalQueue(p, {t});
    PutQueue(p, t, a.(accessToken := t));
  }

  lemma ApplyQueue(s: System, e: Event)
    requires PoolOk(s.pool) && QueueInv(s.pool) && e.Applying? && QueueSafe(s, e)
    ensures QueueInv(StepPool(s.pool, e))
  {
    if Rotates(s.pool, e) {
      RotationKeepsQueueIff(s, e);
    } else if ApplyResult(s.pool, e.name, e.data, e.expected).Installed? {
      var t := ResolveIn(s.pool, e.name);
      PutQueue(s.pool, t, Refreshed(s.pool.accounts[t], t, e.data));
    }
  }

  ghost predicate QueueRunOk(s: System, es: seq<Event>) {
    forall i :: 0 <= i < |es| ==> Enabled(Run(s, es[..i]), es[i]) && QueueSafe(Run(s, es[..i]), es[i])
  }

  /** The invariant of the queue holds in every reachable state. */
  lemma {:induction false} QueueInvariantInEveryRun(s: System, es: seq<Event>)
    requires PoolOk(s.pool) && QueueInv(s.pool) && QueueRunOk(s, es)
    ensures PoolOk(Run(s, es).pool) && QueueInv(Run(s, es).pool)
  {
    if es != [] {
      var n := |es| - 1;
      QueueRunPrefix(s, es, n);
      QueueInvariantInEveryRun(s, es[..n]);
      StepKeepsPoolOk(Run(s, es[..n]), es[n]);
      StepKeepsQueue(Run(s, es[..n]), es[n]);
    }
  }

  lemma QueueRunPrefix(s: System, es: seq<Event>, n: nat)
    requires QueueRunOk(s, es) && n <= |es|
    ensures QueueRunOk(s, es[..n])
  {
    forall i | 0 <= i < n ensures Enabled(Run(s, es[..n][..i]), es[..n][i]) && QueueSafe(Run(s, es[..n][..i]), es[..n][i]) {
      assert es[..n][..i] == es[..i];
    }
  }

  // ---- A forced request during a check ----

  /** The event rotates the token `t`. */
  predicate Retires(p: Pool, e: Event, t: Token) {
    Rotates(p, e) && ResolveIn(p, e.name) == t
  }

  /** The event neither ends the check of `t` nor rotates `t`. */
  predicate LeavesCheck(p: Pool, e: Event, t: Token) {
    e != Finishing(t) && !Retires(p, e, t)
  }

  lemma StepKeepsRerun(s: System, e: Event, t: Token)
    requires t in s.pool.rerun && LeavesCheck(s.pool, e, t)
    ensures t in StepPool(s.pool, e).rerun
  {
    if Rotates(s.pool, e) {
      RotationOnQueue(s.pool, e);
    }
  }

  lemma {:induction false} RerunSurvives(s: System, es: seq<Event>, t: Token)
    requires t in s.pool.rerun
    requires forall i :: 0 <= i < |es| ==> LeavesCheck(Run(s, es[..i]).pool, es[i], t)
    ensures t in Run(s, es).pool.rerun
  {
    if es != [] {
      var n := |es| - 1;
      forall i | 0 <= i < n ensures LeavesCheck(Run(s, es[..n][..i]).pool, es[..n][i], t) {
        assert es[..n][..i] == es[..i];
      }
      RerunSurvives(s, es[..n], t);
      StepKeepsRerun(Run(s, es[..n]), es[n], t);
    }
  }

  /** A forced request for an account whose check is running is not lost: whatever happens until
      that check finishes, as long as its token is not rotated, the account is pending then. */
  lemma ForcedRequestIsServed(s: System, name: Token, now: int, pick: Token, es: seq<Event>, t: Token)
    requires PoolOk(s.pool) && QueueInv(s.pool) && name != ""
    requires t in s.pool.active && ResolveIn(s.pool, name) == t
    requires Enabled(s, Scheduling(name, true, now, pick))
    requires var s1 := Step(s, Scheduling(name, true, now, pick));
             && QueueRunOk(s1, es)
             && forall i :: 0 <= i < |es| ==> LeavesCheck(Run(s1, es[..i]).pool, es[i], t)
    ensures var end := Run(Step(s, Scheduling(name, true, now, pick)), es).pool;
            && t in Finish(end, t).pending
            && t !in Finish(end, t).active
  {
    var s1 := Step(s, Scheduling(name, true, now, pick));
    ForcedRequestIsNoted(s, name, now, pick, t);
    RerunSurvives(s1, es, t);
    QueueInvariantInEveryRun(s1, es);
    NotedCheckRunsAgain(Run(s1, es).pool, t);
  }

  lemma ForcedRequestIsNoted(s: System, name: Token, now: int, pick: Token, t: Token)
    requires PoolOk(s.pool) && QueueInv(s.pool) && name != ""
    requires t in s.pool.active && ResolveIn(s.pool, name) == t
    requires Enabled(s, Scheduling(name, true, now, pick))
    ensures var p := Step(s, Scheduling(name, true, now, pick)).pool;
            PoolOk(p) && QueueInv(p) && t in p.rerun && t in p.active
  {
    forall x | x in ActiveFor(s.pool, t) ensures x == t {
      assert x in s.pool.pendingSet + s.pool.active;
      ResolveTerminal(Aliases(s.pool), x);
    }
    assert t in s.pool.pendingSet + s.pool.active;
    ResolveTerminal(Aliases(s.pool), t);
    assert t in ActiveFor(s.pool, t);
    StepKeepsPoolOk(s, Scheduling(name, true, now, pick));
    ScheduleQueue(s.pool, name, true, now, pick);
  }

  lemma NotedCheckRunsAgain(p: Pool, t: Token)
    requires QueueInv(p) && t in p.rerun
    ensures t in Finish(p, t).pending && t !in Finish(p, t).active
  {
    assert t in p.pendingSet + p.active;
    ResolveTerminal(Aliases(p), t);
  }

  // ---- The worker of a check whose token is rotated ----

  /** The event takes a token out of the active set: the end of a check whose token is still there, or a
      rotation of one active token to another. */
  predicate Frees(p: Pool, e: Event) {
    || (e.Finishing? && e.token in p.active)
    || (Rotates(p, e) && ResolveIn(p, e.name) in p.active && RotatedTo(p, e) in p.active)
  }

  predicate StartsCheck(p: Pool, e: Event, t: Token) {
    e.Starting? && p.pending != [] && |p.active| < MAX_CHECKS && p.pending[0] == t
  }

  /** The event puts `t` into the active set. */
  predicate Activates(p: Pool, e: Event, t: Token) {
    StartsCheck(p, e, t) || (Rotates(p, e) && ResolveIn(p, e.name) in p.active && RotatedTo(p, e) == t)
  }

  lemma SettleKeepsActive(p: Pool, name: Token, how: Settlement)
    ensures Settle(p, name, how).active == p.active
  {
  }

  lemma OthersKeepActive(p: Pool, e: Event)
    requires !e.Starting? && !e.Finishing? && !Rotates(p, e)
    ensures StepPool(p, e).active == p.active
  {
    if e.Settling? {
      SettleKeepsActive(p, e.name, e.how);
    }
  }

  /** The active set after any event. */
  lemma ActiveStep(p: Pool, e: Event, t: Token)
    ensures t in StepPool(p, e).active <==>
            Activates(p, e, t) || (t in p.active && e != Finishing(t) && !Retires(p, e, t))
  {
    if Rotates(p, e) {
      RotationOnQueue(p, e);
    } else if !e.Starting? && !e.Finishing? {
      OthersKeepActive(p, e);
    }
  }

  /** Exactly these events make room for a further check; in particular the end of the check that was
      started for `t` does if and only if `t` is still in the active set. */
  lemma RoomIsMadeIff(p: Pool, e: Event)
    ensures |StepPool(p, e).active| < |p.active| <==> Frees(p, e)
    ensures |p.active| == MAX_CHECKS ==> |StepPool(p, e).active| <= MAX_CHECKS
    ensures |p.active| == MAX_CHECKS && e.Starting? ==> StepPool(p, e) == p
  {
    if Rotates(p, e) {
      RotationOnQueue(p, e);
      RenamedSize(p.active, ResolveIn(p, e.name), RotatedTo(p, e));
    } else if !e.Starting? && !e.Finishing? {
      OthersKeepActive(p, e);
    }
  }

  lemma RenamedSize(a: set<Token>, t: Token, n: Token)
    requires t != n
    ensures |Renamed(a, t, n)| == |a| - if t in a && n in a then 1 else 0
  {
    if t in a && n in a {
      assert a - {t} + {n} == a - {t};
    }
  }

  /** No event of the run rotates `t`. */
  ghost predicate NeverRotated(s: System, es: seq<Event>, t: Token) {
    es == [] ||
    (NeverRotated(s, es[..|es| - 1], t) && !Retires(Run(s, es[..|es| - 1]).pool, es[|es| - 1], t))
  }

  /** The check of `t` goes on during the run, and no other one gets to run under the same token. */
  ghost predicate GoesOn(s: System, es: seq<Event>, t: Token) {
    es == [] ||
    (GoesOn(s, es[..|es| - 1], t) &&
     es[|es| - 1] != Finishing(t) && !Activates(Run(s, es[..|es| - 1]).pool, es[|es| - 1], t))
  }

  /** Whatever happens between the start of a check and its end, the end makes room for another check if
      and only if the token of the check was not rotated in between. */
  lemma CheckFreesItsWorkerIff(s: System, es: seq<Event>, t: Token)
    requires t in s.pool.active && GoesOn(s, es, t)
    ensures |Finish(Run(s, es).pool, t).active| < |Run(s, es).pool.active| <==> NeverRotated(s, es, t)
  {
    StaysActiveIff(s, es, t);
    RoomIsMadeIff(Run(s, es).pool, Finishing(t));
  }

  lemma {:induction false} StaysActiveIff(s: System, es: seq<Event>, t: Token)
    requires t in s.pool.active && GoesOn(s, es, t)
    ensures t in Run(s, es).pool.active <==> NeverRotated(s, es, t)
  {
    if es != [] {
      var n := |es| - 1;
      StaysActiveIff(s, es[..n], t);
      ActiveStep(Run(s, es[..n]).pool, es[n], t);
    }
  }

  ghost predicate Full(s: System) {
    |s.pool.active| == MAX_CHECKS
  }

  ghost predicate FullThroughout(s: System, es: seq<Event>) {
    Full(Run(s, es)) && (es == [] || FullThroughout(s, es[..|es| - 1]))
  }

  ghost predicate NeverFrees(s: System, es: seq<Event>) {
    es == [] || (NeverFrees(s, es[..|es| - 1]) && !Frees(Run(s, es[..|es| - 1]).pool, es[|es| - 1]))
  }

  /** The queue stays full over a run if and only if no event of the run makes room. */
  lemma {:induction false} StaysFullIff(s: System, es: seq<Event>)
    requires Full(s)
    ensures FullThroughout(s, es) <==> NeverFrees(s, es)
  {
    if es != [] {
      var n := |es| - 1;
      StaysFullIff(s, es[..n]);
      if FullThroughout(s, es[..n]) {
        FullThroughoutEnds(s, es[..n]);
      }
      RoomIsMadeIff(Run(s, es[..n]).pool, es[n]);
    }
  }

  lemma FullThroughoutEnds(s: System, es: seq<Event>)
    requires FullThroughout(s, es)
    ensures Full(Run(s, es))
  {
  }

  /** The tokens of the checks that were started in the run and are not over. */
  ghost function Workers(s: System, es: seq<Event>): multiset<Token> {
    if es == [] then multiset{}
    else
      var before, p, e := Workers(s, es[..|es| - 1]), Run(s, es[..|es| - 1]).pool, es[|es| - 1];
      if e.Starting? && p.pending != [] && |p.active| < MAX_CHECKS then before + multiset{p.pending[0]}
      else if e.Finishing? then before - multiset{e.token}
      else before
  }

  /** Every check that ends in the run was started in it, and no rotation turns one active token into
      another. */
  ghost predicate OwnWorkersOnly(s: System, es: seq<Event>) {
    es == [] ||
    var before, p, e := es[..|es| - 1], Run(s, es[..|es| - 1]).pool, es[|es| - 1];
    && OwnWorkersOnly(s, before)
    && (e.Finishing? ==> e.token in Workers(s, before))
    && (Rotates(p, e) ==> !Frees(p, e))
  }

  /** A full queue whose workers are all gone has stopped for good: whatever happens afterwards, no check
      is running and every attempt to start one changes nothing. */
  lemma {:induction false} FullQueueNeverStarts(s: System, es: seq<Event>, now: int)
    requires Full(s) && OwnWorkersOnly(s, es)
    ensures Full(Run(s, es)) && Workers(s, es) == multiset{}
    ensures Step(Run(s, es), Starting(now)) == Run(s, es)
  {
    if es != [] {
      var n := |es| - 1;
      FullQueueNeverStarts(s, es[..n], now);
      FullStays(Run(s, es[..n]).pool, es[n], Workers(s, es[..n]));
    }
    RoomIsMadeIff(Run(s, es).pool, Starting(now));
  }

  lemma FullStays(p: Pool, e: Event, workers: multiset<Token>)
    requires |p.active| == MAX_CHECKS && workers == multiset{}
    requires e.Finishing? ==> e.token in workers
    requires Rotates(p, e) ==> !Frees(p, e)
    ensures |StepPool(p, e).active| == MAX_CHECKS
  {
    RoomIsMadeIff(p, e);
  }

  // ---- How the queue fills up with rotated checks ----

  /** A run that breaks no condition for slots or for the queue. */
  ghost predicate GoodRun(s: System, es: seq<Event>) {
    RunOk(s, es) && QueueRunOk(s, es)
  }

  lemma GoodRunExtends(s: System, es: seq<Event>, e: Event)
    requires GoodRun(s, es) && Enabled(Run(s, es), e) && SlotSafe(Run(s, es), e) && QueueSafe(Run(s, es), e)
    ensures GoodRun(s, es + [e]) && Run(s, es + [e]) == Step(Run(s, es), e)
  {
    var all := es + [e];
    assert all[..|es|] == es;
    forall i | 0 <= i < |all|
      ensures Enabled(Run(s, all[..i]), all[i]) && SlotSafe(Run(s, all[..i]), all[i]) && QueueSafe(Run(s, all[..i]), all[i])
    {
      if i < |es| {
        assert all[..i] == es[..i] && all[i] == es[i];
      }
    }
  }

  lemma WorkersExtend(s: System, es: seq<Event>, e: Event)
    ensures var p := Run(s, es).pool;
            Workers(s, es + [e]) ==
            if e.Starting? && p.pending != [] && |p.active| < MAX_CHECKS then Workers(s, es) + multiset{p.pending[0]}
            else if e.Finishing? then Workers(s, es) - multiset{e.token}
            else Workers(s, es)
  {
    assert (es + [e])[..|es|] == es;
  }

  /** The pool is well formed, nothing is pending, nobody holds a slot, and these checks are active. */
  ghost predicate Quiet(s: System, active: set<Token>, accounts: set<Token>) {
    && PoolOk(s.pool) && s.pool.pending == [] && s.pool.pendingSet == {} && s.leases == []
    && s.pool.active == active && s.pool.accounts.Keys == accounts
  }

  ghost predicate Reaches(s: System, es: seq<Event>, active: set<Token>, accounts: set<Token>) {
    GoodRun(s, es) && Quiet(Run(s, es), active, accounts)
  }

  function Request(t: Token, now: int): Event {
    Scheduling(t, true, now, "")
  }

  function Replacing(t: Token, n: Token): Event {
    Applying(t, TokenData(n, None, None), Anything)
  }

  lemma RequestIsQueued(p: Pool, t: Token, now: int)
    requires PoolOk(p) && t in p.accounts && t !in p.active && p.active <= p.accounts.Keys
    requires p.pending == [] && p.pendingSet == {}
    ensures ActiveFor(p, ResolveIn(p, t)) == {}
    ensures Schedule(p, t, true, now, "") == p.(startedAt := Remembered(p, now), pending := [t], pendingSet := {t})
  {
    LiveResolvesToItself(p, t);
    forall x | x in p.active ensures ResolveIn(p, x) != t {
      LiveResolvesToItself(p, x);
    }
  }

  lemma RequestIsStarted(s: System, t: Token, now: int, active: set<Token>, accounts: set<Token>)
    requires Quiet(s, active, accounts) && t in accounts && t !in active && active <= accounts && |active| < MAX_CHECKS
    ensures Enabled(s, Request(t, now))
    ensures Step(s, Request(t, now)).pool.pending == [t] && Step(s, Request(t, now)).pool.active == active
    ensures Quiet(Step(Step(s, Request(t, now)), Starting(now)), active + {t}, accounts)
  {
    var p := s.pool;
    RequestIsQueued(p, t, now);
    SamePoolOk(p, Start(p.(startedAt := Remembered(p, now), pending := [t], pendingSet := {t}), now));
  }

  lemma CheckIsStarted(s: System, es: seq<Event>, t: Token, now: int, active: set<Token>, accounts: set<Token>, more: set<Token>)
    requires Reaches(s, es, active, accounts) && t in accounts && t !in active && active <= accounts && |active| < MAX_CHECKS
    requires more == active + {t}
    ensures Reaches(s, es + [Request(t, now)] + [Starting(now)], more, accounts)
    ensures Workers(s, es + [Request(t, now)] + [Starting(now)]) == Workers(s, es) + multiset{t}
  {
    RequestIsStarted(Run(s, es), t, now, active, accounts);
    GoodRunExtends(s, es, Request(t, now));
    GoodRunExtends(s, es + [Request(t, now)], Starting(now));
    WorkersExtend(s, es, Request(t, now));
    WorkersExtend(s, es + [Request(t, now)], Starting(now));
  }

  lemma CheckIsRotated(s: System, es: seq<Event>, t: Token, n: Token, active: set<Token>, accounts: set<Token>, renamed: set<Token>)
    requires Reaches(s, es, active, accounts) && t in accounts && n !in accounts && n != "" && renamed == Renamed(active, t, n)
    ensures Reaches(s, es + [Replacing(t, n)], renamed, accounts - {t} + {n})
  {
    RotationIsQuiet(Run(s, es), t, n, active, accounts);
    GoodRunExtends(s, es, Replacing(t, n));
  }

  lemma RotationIsQuiet(s: System, t: Token, n: Token, active: set<Token>, accounts: set<Token>)
    requires Quiet(s, active, accounts) && t in accounts && n !in accounts && n != ""
    ensures SlotSafe(s, Replacing(t, n)) && QueueSafe(s, Replacing(t, n))
    ensures Quiet(Step(s, Replacing(t, n)), Renamed(active, t, n), accounts - {t} + {n})
  {
    LiveResolvesToItself(s.pool, t);
    assert Rotates(s.pool, Replacing(t, n));
    RotationEffect(s, Replacing(t, n));
    RotationOnQueue(s.pool, Replacing(t, n));
    assert Aliases(StepPool(s.pool, Replacing(t, n))).live == accounts - {t} + {n};
  }

  lemma CheckIsOver(s: System, es: seq<Event>, t: Token, active: set<Token>, accounts: set<Token>)
    requires Reaches(s, es, active, accounts) && t !in active && Run(s, es).pool.rerun <= active
    ensures Reaches(s, es + [Finishing(t)], active, accounts) && Run(s, es + [Finishing(t)]).pool.rerun <= active
  {
    var p := Run(s, es).pool;
    GoodRunExtends(s, es, Finishing(t));
    SamePoolOk(p, Finish(p, t));
    assert p.active - {t} == p.active;
  }

  /** Two checks are started, their accounts are rotated while they run, and both end. */
  function TwoChecks(a: Token, b: Token, now: int): seq<Event> {
    [Request(a, now)] + [Starting(now)] + [Request(b, now)] + [Starting(now)]
  }

  function TwoChecksRotated(a: Token, b: Token, x: Token, y: Token, now: int): seq<Event> {
    TwoChecks(a, b, now) + [Replacing(a, x)] + [Replacing(b, y)]
  }

  function TwoRotatedChecks(a: Token, b: Token, x: Token, y: Token, now: int): seq<Event> {
    TwoChecksRotated(a, b, x, y, now) + [Finishing(a)] + [Finishing(b)]
  }

  lemma FirstCheckStarts(s: System, a: Token, now: int)
    requires Initial(s) && a in s.pool.accounts
    ensures Reaches(s, [Request(a, now)] + [Starting(now)], {a}, s.pool.accounts.Keys)
    ensures Workers(s, [Request(a, now)] + [Starting(now)]) == multiset{a}
  {
    var none: seq<Event> := [];
    assert Reaches(s, none, {}, s.pool.accounts.Keys);
    CheckIsStarted(s, none, a, now, {}, s.pool.accounts.Keys, {a});
    assert none + [Request(a, now)] == [Request(a, now)];
  }

  lemma TwoChecksStart(s: System, a: Token, b: Token, now: int)
    requires Initial(s) && a in s.pool.accounts && b in s.pool.accounts && a != b
    ensures Reaches(s, TwoChecks(a, b, now), {a, b}, s.pool.accounts.Keys)
    ensures Workers(s, TwoChecks(a, b, now)) == multiset{a, b}
  {
    FirstCheckStarts(s, a, now);
    CheckIsStarted(s, [Request(a, now)] + [Starting(now)], b, now, {a}, s.pool.accounts.Keys, {a, b});
  }

  lemma BothRotate(s: System, es: seq<Event>, a: Token, b: Token, x: Token, y: Token, live: set<Token>)
    requires Reaches(s, es, {a, b}, live) && a in live && b in live && a != b
    requires x !in live && y !in live && x != y && x != "" && y != ""
    ensures Reaches(s, es + [Replacing(a, x)] + [Replacing(b, y)], {x, y}, live - {a} + {x} - {b} + {y})
  {
    RenamedPair(a, b, x, y);
    CheckIsRotated(s, es, a, x, {a, b}, live, {x, b});
    CheckIsRotated(s, es + [Replacing(a, x)], b, y, {x, b}, live - {a} + {x}, {x, y});
  }

  lemma RenamedPair(a: Token, b: Token, x: Token, y: Token)
    requires a != b && x != b
    ensures Renamed({a, b}, a, x) == {x, b} && Renamed({x, b}, b, y) == {x, y}
  {
  }

  lemma BothEnd(s: System, es: seq<Event>, a: Token, b: Token, active: set<Token>, live: set<Token>)
    requires Reaches(s, es, active, live) && a !in active && b !in active
    requires QueueInv(Run(s, es).pool)
    ensures Reaches(s, es + [Finishing(a)] + [Finishing(b)], active, live)
  {
    CheckIsOver(s, es, a, active, live);
    CheckIsOver(s, es + [Finishing(a)], b, active, live);
  }

  lemma BothLeave(s: System, es: seq<Event>, a: Token, b: Token, x: Token, y: Token)
    requires Workers(s, es) == multiset{a, b}
    ensures Workers(s, es + [Replacing(a, x)] + [Replacing(b, y)] + [Finishing(a)] + [Finishing(b)]) == multiset{}
  {
    var first := es + [Replacing(a, x)];
    var second := first + [Replacing(b, y)];
    WorkersExtend(s, es, Replacing(a, x));
    WorkersExtend(s, first, Replacing(b, y));
    WorkersExtend(s, second, Finishing(a));
    WorkersExtend(s, second + [Finishing(a)], Finishing(b));
  }

  lemma InitialQueue(s: System)
    requires Initial(s)
    ensures QueueInv(s.pool)
  {
    assert Elements(s.pool.pending) == {};
  }

  lemma TwoRotatedChecksReach(s: System, a: Token, b: Token, x: Token, y: Token, now: int)
    requires Initial(s) && a in s.pool.accounts && b in s.pool.accounts && a != b
    requires x !in s.pool.accounts && y !in s.pool.accounts && x != y && x != "" && y != ""
    requires Reaches(s, TwoChecks(a, b, now), {a, b}, s.pool.accounts.Keys)
    ensures Reaches(s, TwoRotatedChecks(a, b, x, y, now), {x, y}, s.pool.accounts.Keys - {a} + {x} - {b} + {y})
  {
    var live := s.pool.accounts.Keys;
    BothRotate(s, TwoChecks(a, b, now), a, b, x, y, live);
    InitialQueue(s);
    QueueInvariantInEveryRun(s, TwoChecksRotated(a, b, x, y, now));
    BothEnd(s, TwoChecksRotated(a, b, x, y, now), a, b, {x, y}, live - {a} + {x} - {b} + {y});
  }

  /** From any freshly loaded pool with two accounts, two checks during which the accounts are rotated to
      new tokens leave a full queue behind, although no worker is left: `FullQueueNeverStarts` applies from
      then on. */
  lemma TwoRotatedChecksFillTheQueue(s: System, a: Token, b: Token, x: Token, y: Token, now: int)
    requires Initial(s) && a in s.pool.accounts && b in s.pool.accounts && a != b
    requires x !in s.pool.accounts && y !in s.pool.accounts && x != y && x != "" && y != ""
    ensures GoodRun(s, TwoRotatedChecks(a, b, x, y, now)) && Full(Run(s, TwoRotatedChecks(a, b, x, y, now)))
    ensures Run(s, TwoRotatedChecks(a, b, x, y, now)).pool.active == {x, y}
    ensures Workers(s, TwoRotatedChecks(a, b, x, y, now)) == multiset{}
  {
    TwoChecksStart(s, a, b, now);
    TwoRotatedChecksReach(s, a, b, x, y, now);
    TwoRotatedChecksLeave(s, a, b, x, y, now);
    TwoActiveIsFull(s, TwoRotatedChecks(a, b, x, y, now), x, y, s.pool.accounts.Keys - {a} + {x} - {b} + {y});
  }

  lemma TwoRotatedChecksLeave(s: System, a: Token, b: Token, x: Token, y: Token, now: int)
    requires Workers(s, TwoChecks(a, b, now)) == multiset{a, b}
    ensures Workers(s, TwoRotatedChecks(a, b, x, y, now)) == multiset{}
  {
    BothLeave(s, TwoChecks(a, b, now), a, b, x, y);
  }

  lemma TwoActiveIsFull(s: System, es: seq<Event>, x: Token, y: Token, live: set<Token>)
    requires Reaches(s, es, {x, y}, live) && x != y
    ensures GoodRun(s, es) && Full(Run(s, es)) && Run(s, es).pool.active == {x, y}
  {
  }

  /** A concrete pool of that kind. */
  function TwoAccounts(): System {
    var account := (t: Token) => Account(t, "", "web", "", Normal, 1, false, 0, 0);
    System(Pool(1, map["a" := account("a"), "b" := account("b")], ["a", "b"], map[], map[], 0, [], {}, {}, {}, map[]), [])
  }

  lemma QueueCanStop()
    ensures Initial(TwoAccounts()) && Full(Run(TwoAccounts(), TwoRotatedChecks("a", "b", "c", "d", 0)))
  {
    var p := TwoAccounts().pool;
    assert p.order[0] == "a" && p.order[1] == "b";
    assert Elements(p.order) == p.accounts.Keys;
    assert NoDeadCycle(Aliases(p)) by {
      forall w: seq<Token> | Path(Aliases(p), w) ensures |w| == 1 {
        assert !Hops(Aliases(p), w[0]);
      }
    }
    TwoRotatedChecksFillTheQueue(TwoAccounts(), "a", "b", "c", "d", 0);
  }
}
