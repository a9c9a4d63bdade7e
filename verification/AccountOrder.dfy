/** The order in which accounts are offered: the order of their insertion, over every run of the lock regions,
    and the cursor that goes round it. */
module AccountOrder {
  import opened Sequences
  import opened AliasGraph
  import opened AccountPool
  import opened SlotConservation
  import opened SlotFairness
  import opened AccountRecords

  ghost predicate Before(s: seq<Token>, x: Token, y: Token) {
    exists i :: 0 <= i <= |s| && x in s[..i] && y in s[i..]
  }

  lemma BeforeSplit(s: seq<Token>, a: seq<Token>, b: seq<Token>, x: Token, y: Token)
    requires s == a + b && x in a && y in b
    ensures Before(s, x, y)
  {
    assert s[..|a|] == a && s[|a|..] == b;
  }

  lemma BeforeMore(s: seq<Token>, more: seq<Token>, x: Token, y: Token)
    requires Before(s, x, y)
    ensures Before(s + more, x, y)
  {
    var i :| 0 <= i <= |s| && x in s[..i] && y in s[i..];
    assert s + more == s[..i] + (s[i..] + more);
    BeforeSplit(s + more, s[..i], s[i..] + more, x, y);
  }

  lemma FilterKeepsBefore(s: seq<Token>, keep: Token -> bool, x: Token, y: Token)
    requires Before(s, x, y) && keep(x) && keep(y)
    ensures Before(Filter(s, keep), x, y)
  {
    var i :| 0 <= i <= |s| && x in s[..i] && y in s[i..];
    assert s == s[..i] + s[i..];
    FilterConcat(s[..i], s[i..], keep);
    BeforeSplit(Filter(s, keep), Filter(s[..i], keep), Filter(s[i..], keep), x, y);
  }

  // ---- One step ----

  /** How an event changes the order: nobody new, or the given token at its end. */
  ghost predicate Arranges(before: seq<Token>, after: seq<Token>, gone: set<Token>, last: Option<Token>) {
    after == Filter(before, Outside(gone)) + if last.Some? then [last.value] else []
  }

  lemma ArrangedBefore(before: seq<Token>, after: seq<Token>, gone: set<Token>, last: Option<Token>, x: Token, y: Token)
    requires Arranges(before, after, gone, last) && Before(before, x, y) && x !in gone && y !in gone
    ensures Before(after, x, y)
  {
    FilterKeepsBefore(before, Outside(gone), x, y);
    BeforeMore(Filter(before, Outside(gone)), if last.Some? then [last.value] else [], x, y);
  }

  lemma ArrangedLast(before: seq<Token>, after: seq<Token>, gone: set<Token>, last: Option<Token>, x: Token, y: Token)
    requires Arranges(before, after, gone, last) && x in after && last == Some(y) && x != y
    ensures Before(after, x, y)
  {
    BeforeSplit(after, Filter(before, Outside(gone)), [y], x, y);
  }

  lemma SameOrder(order: seq<Token>)
    ensures Arranges(order, order, {}, None)
  {
    FilterAll(order, Outside({}));
  }

  lemma SettleArranges(p: Pool, name: Token, how: Settlement)
    ensures Arranges(p.order, Settle(p, name, how).order, if how == Exhausted(true) && ResolveIn(p, name) in p.accounts then {ResolveIn(p, name)} else {}, None)
  {
    SameOrder(p.order);
  }


  /** The tokens that the event takes out of the order. */
  ghost function Leaving(p: Pool, e: Event): set<Token> {
    match e
    case Settling(_, name, how) => if how == Exhausted(true) && ResolveIn(p, name) in p.accounts then {ResolveIn(p, name)} else {}
    case Updating(name, a, autoRemove) =>
      if ResolveIn(p, name) in p.accounts && a.status.Limited? && autoRemove then {ResolveIn(p, name)} else {}
    case Deleting(names) => DeleteTargets(p, names)
    case Reimporting(existing, _, _) => {existing}
    case Applying(name, _, _) => if Rotates(p, e) then {ResolveIn(p, name)} else {}
    case _ => {}
  }

  /** The token that the event puts at the end. */
  ghost function Joining(p: Pool, e: Event): Option<Token> {
    match e
    case Importing(t, _) => if t in p.accounts then None else Some(t)
    case Reimporting(_, t, _) => Some(t)
    case Applying(_, _, _) => if Rotates(p, e) then Some(RotatedTo(p, e)) else None
    case _ => None
  }

  ghost predicate StepArranges(p: Pool, e: Event) {
    Arranges(p.order, StepPool(p, e).order, Leaving(p, e), Joining(p, e))
  }

  lemma ApplyingArranges(p: Pool, e: Event)
    requires e.Applying?
    ensures StepArranges(p, e)
  {
    SameOrder(p.order);
    if Rotates(p, e) {
      var t, n := ResolveIn(p, e.name), RotatedTo(p, e);
      assert n !in p.accounts;
      assert StepPool(p, e) == RotatePool(p, t, n, Refreshed(p.accounts[t], n, e.data));
      RotatedOrder(p, t, n, Refreshed(p.accounts[t], n, e.data));
    }
  }

  lemma RotatedOrder(p: Pool, t: Token, n: Token, a: Account)
    requires n !in p.accounts
    ensures RotatePool(p, t, n, a).order == Filter(p.order, Outside({t})) + [n]
  {
  }

  lemma RemovingArranges(p: Pool, e: Event)
    requires e.Settling? || e.Updating? || e.Deleting?
    ensures StepArranges(p, e)
  {
    SameOrder(p.order);
    if e.Settling? {
      SettleArranges(p, e.name, e.how);
    }
  }

  lemma ImportsArrange(s: System, e: Event)
    requires Enabled(s, e) && (e.Importing? || e.Reimporting?)
    ensures StepArranges(s.pool, e)
  {
    SameOrder(s.pool.order);
  }

  lemma QueueKeepsOrder(p: Pool, e: Event)
    requires e.Scheduling? || e.Starting? || e.Finishing?
    ensures StepPool(p, e).order == p.order
  {
  }

  lemma AcquiringKeepsOrder(p: Pool, e: Event)
    requires e.Acquiring? || e.Naming?
    ensures StepPool(p, e).order == p.order
  {
  }

  lemma OrderStep(s: System, e: Event)
    requires Enabled(s, e)
    ensures StepArranges(s.pool, e)
  {
    if e.Applying? {
      ApplyingArranges(s.pool, e);
    } else if e.Settling? || e.Updating? || e.Deleting? {
      RemovingArranges(s.pool, e);
    } else if e.Importing? || e.Reimporting? {
      ImportsArrange(s, e);
    } else {
      SameOrder(s.pool.order);
      if e.Acquiring? || e.Naming? {
        AcquiringKeepsOrder(s.pool, e);
      } else {
        QueueKeepsOrder(s.pool, e);
      }
    }
  }

  lemma StayingIsNotLeaving(s: System, e: Event, u: Token)
    requires Enabled(s, e) && u in s.pool.accounts && u in StepPool(s.pool, e).accounts
    ensures u !in Leaving(s.pool, e)
  {
    RemovedIff(s, e, u);
    if Rotates(s.pool, e) {
      var t, n := ResolveIn(s.pool, e.name), RotatedTo(s.pool, e);
      RotatedAccounts(s.pool, t, n, Refreshed(s.pool.accounts[t], n, e.data));
    }
  }

  lemma NewIsJoining(s: System, e: Event, u: Token)
    requires Enabled(s, e) && u !in s.pool.accounts && u in StepPool(s.pool, e).accounts
    ensures Joining(s.pool, e) == Some(u)
  {
    if e.Settling? {
      SettlingAccounts(s.pool, e.name, e.how);
    } else if Rotates(s.pool, e) {
      var t, n := ResolveIn(s.pool, e.name), RotatedTo(s.pool, e);
      RotatedAccounts(s.pool, t, n, Refreshed(s.pool.accounts[t], n, e.data));
    }
  }

  // ---- Every run ----

  /** The account is in the pool under this very token throughout the run. */
  ghost predicate Remains(s: System, es: seq<Event>, u: Token) {
    u in Run(s, es).pool.accounts && (es == [] || Remains(s, es[..|es| - 1], u))
  }

  /** Over every run, two accounts that remain in the pool under their tokens stay in their order, whatever is
      imported, rotated, updated or deleted meanwhile. */
  lemma {:induction false} OrderIsKept(s: System, es: seq<Event>, x: Token, y: Token)
    requires RunEnabled(s, es) && Before(s.pool.order, x, y) && Remains(s, es, x) && Remains(s, es, y)
    ensures Before(Run(s, es).pool.order, x, y)
  {
    if es != [] {
      var init, e := es[..|es| - 1], es[|es| - 1];
      PrefixEnabled(s, es);
      OrderIsKept(s, init, x, y);
      StepKeepsOrder(Run(s, init), e, x, y);
    }
  }

  lemma StepKeepsOrder(s: System, e: Event, x: Token, y: Token)
    requires Enabled(s, e) && Before(s.pool.order, x, y) && x in s.pool.accounts && y in s.pool.accounts
    requires x in StepPool(s.pool, e).accounts && y in StepPool(s.pool, e).accounts
    ensures Before(StepPool(s.pool, e).order, x, y)
  {
    OrderStep(s, e);
    StayingIsNotLeaving(s, e, x);
    StayingIsNotLeaving(s, e, y);
    ArrangedBefore(s.pool.order, StepPool(s.pool, e).order, Leaving(s.pool, e), Joining(s.pool, e), x, y);
  }

  /** An account that is imported, re-imported or rotated to comes after all that are there already. */
  lemma NewestIsLast(s: System, e: Event, x: Token, y: Token)
    requires PoolOk(s.pool) && Enabled(s, e) && x in s.pool.accounts && x in StepPool(s.pool, e).accounts
    requires y !in s.pool.accounts && y in StepPool(s.pool, e).accounts
    ensures Before(StepPool(s.pool, e).order, x, y)
  {
    OrderStep(s, e);
    NewIsJoining(s, e, y);
    StepKeepsPoolOk(s, e);
    assert x in Elements(StepPool(s.pool, e).order);
    ArrangedLast(s.pool.order, StepPool(s.pool, e).order, Leaving(s.pool, e), Joining(s.pool, e), x, y);
  }

  /** Accounts are offered in this order. */
  lemma OfferedInOrder(p: Pool, f: Filters, excluded: set<Token>, x: Token, y: Token)
    requires Before(p.order, x, y) && x in AvailableTokens(p, f, excluded) && y in AvailableTokens(p, f, excluded)
    ensures Before(AvailableTokens(p, f, excluded), x, y)
  {
    FilterKeepsBefore(p.order, ReadyTest(p, f, excluded), x, y);
    FilterKeepsBefore(ReadyTokens(p, f, excluded), FreeTest(p), x, y);
  }

  /** A deletion does not move the cursor among those that are left: if all of them are available, the next
      slot is taken where the cursor stood before, counted round them. */
  lemma CursorSurvivesDeletion(p: Pool, names: set<Token>, f: Filters, excluded: set<Token>)
    requires PoolOk(p) && Delete(p, names).order != []
    requires AvailableTokens(Delete(p, names), f, excluded) == Delete(p, names).order
    ensures AcquireResult(Delete(p, names), f, excluded) == Got(Delete(p, names).order[p.index % |Delete(p, names).order|])
  {
    var q := Delete(p, names);
    RemovalKeepsPoolOk(p, DeleteTargets(p, names));
    OrderHasAll(q);
    RemainderTwice(p.index, |q.order|);
  }

  lemma RemainderTwice(x: nat, n: nat)
    requires n > 0
    ensures x % n % n == x % n
  {
  }

  lemma OrderHasAll(p: Pool)
    requires PoolOk(p)
    ensures |p.order| == |p.accounts|
  {
    DistinctCount(p.order);
  }
}
