/** The remote check of one account, as a function of the state it starts in and of a world of answers:
    what other callers do between its lock regions, and what the remote ends reply. */
module ImageCheck {
  import opened Sequences
  import opened AliasGraph
  import opened AccountPool
  import opened SlotConservation
  import opened CallerView

  // ---- The world ----

  /** What the token endpoint answers: tokens, a terminal failure of the refresh credential, or a
      transient failure that is raised. */
  datatype RefreshReply = Answer(data: TokenData) | Dead | Raised

  /** What the remote end says about an account; `Fields` carries the record merged from the answer. */
  datatype InfoReply = InvalidToken | Failed | Fields(account: Account)

  /** Everything outside the pool, at the k-th time it is consulted: what other callers do while `me`
      holds the lease `id`, and what the remote services answer. The two switches are the configured
      automatic removals. */
  datatype World = World(
    me: nat,
    others: (nat, System, nat) -> seq<Event>,
    due: nat -> bool,
    refresh: (nat, System) -> RefreshReply,
    info: nat -> InfoReply,
    removeInvalid: bool,
    removeLimited: bool)

  /** Other callers are polite and nobody deletes the account under check; rotated-to tokens are new. */
  ghost predicate Fair(w: World) {
    && (forall k, s, id :: SlotInv(s) ==> PoliteRun(s, w.others(k, s, id), w.me, id))
    && (forall k, s :: SlotInv(s) && w.refresh(k, s).Answer? && w.refresh(k, s).data.access !in s.pool.accounts ==>
          NoLeaseVisits(s, w.refresh(k, s).data.access))
  }

  /** The state after the other callers had their turn. */
  ghost function Interfered(w: World, k: nat, s: System, id: nat): System {
    Run(s, w.others(k, s, id))
  }

  lemma InterferedKeeps(w: World, k: nat, s: System, id: nat)
    requires SlotInv(s) && Fair(w)
    ensures Undisturbed(s, Interfered(w, k, s, id), w.me, id) && RunEnabled(s, w.others(k, s, id))
  {
    var es := w.others(k, s, id);
    assert PoliteRun(s, es, w.me, id);
    PoliteRunKeeps(s, es, w.me, id);
    forall i | 0 <= i < |es| ensures Enabled(Run(s, es[..i]), es[i]) {
      assert Polite(Run(s, es[..i]), es[i], w.me);
    }
  }

  // ---- Names of the lease ----

  ghost predicate HasName(s: System, me: nat, id: nat, name: Token) {
    Holds(s, me, id) && IsName(s.leases[id], name)
  }

  /** The holder has noted a further name. */
  ghost function Named(s: System, id: nat, name: Token): System {
    Step(s, Naming(id, name))
  }

  lemma NamedKeeps(s: System, me: nat, id: nat, name: Token)
    requires SlotInv(s) && Holds(s, me, id) && Enabled(s, Naming(id, name))
    ensures Undisturbed(s, Named(s, id, name), me, id) && HasName(Named(s, id, name), me, id, name)
    ensures Named(s, id, name).pool == s.pool
  {
    NamingKeepsSlots(s, id, name);
  }

  lemma StillNamed(a: System, b: System, me: nat, id: nat, name: Token)
    requires Kept(a, b, me) && HasName(a, me, id, name)
    ensures HasName(b, me, id, name)
  {
    assert SameLease(a.leases[id], b.leases[id]);
  }

  // ---- A rejected token ----

  ghost function WithMark(s: System, name: Token): System {
    s.(pool := Invalidate(s.pool, name))
  }

  lemma MarkedKeeps(s: System, name: Token, me: nat, id: nat)
    requires SlotInv(s)
    ensures Undisturbed(s, WithMark(s, name), me, id)
    ensures var t := ResolveIn(s.pool, name);
            t in s.pool.accounts ==> WithMark(s, name) == Step(s, Updating(name, Rejected(s.pool.accounts[t]), false))
  {
    var t := ResolveIn(s.pool, name);
    if t in s.pool.accounts {
      var marked := Rejected(s.pool.accounts[t]);
      UpdateIsPolite(s, name, marked, false, me, id);
      PoliteStep(s, Updating(name, marked, false), me);
    } else {
      assert WithMark(s, name) == s;
    }
  }

  /** `handle_invalid_token`: marks the account, and deletes it when so configured; a deletion that finds no
      account is followed by another mark. */
  ghost function Handled(w: World, k: nat, s: System, id: nat, name: Token): System {
    var marked := WithMark(s, name);
    if !w.removeInvalid then marked
    else
      var c := Interfered(w, k, marked, id);
      var left := Step(c, Deleting({name}));
      if ResolveIn(c.pool, name) in c.pool.accounts then left else WithMark(Interfered(w, k, left, id), name)
  }

  lemma DeletedIsGone(p: Pool, name: Token)
    requires PoolOk(p)
    ensures ResolveIn(Delete(p, {name}), name) !in Delete(p, {name}).accounts
  {
    DeletedGraph(p, {name});
    if name == "" {
      ResolveTerminal(Aliases(Delete(p, {name})), name);
    } else {
      assert ResolveIn(p, name) in DeleteTargets(p, {name});
    }
  }

  /** The deletion under a name of the lease takes its account, if that is still there. */
  lemma DeletedKeeps(s: System, me: nat, id: nat, name: Token)
    requires SlotInv(s) && HasName(s, me, id, name)
    ensures Kept(s, Step(s, Deleting({name})), me) && !Live(Step(s, Deleting({name})), id)
  {
    PoliteStep(s, Deleting({name}), me);
    DeletedIsGone(s.pool, name);
    StillNamed(s, Step(s, Deleting({name})), me, id, name);
    NameResolves(Step(s, Deleting({name})), me, id, name);
  }

  /** Without automatic removal the account is marked and no more happens; with it the account of the lease
      is gone afterwards. */
  lemma HandledKeeps(w: World, k: nat, s: System, id: nat, name: Token)
    requires SlotInv(s) && Fair(w) && HasName(s, w.me, id, name)
    ensures Kept(s, Handled(w, k, s, id, name), w.me)
    ensures if w.removeInvalid then !Live(Handled(w, k, s, id, name), id)
            else Handled(w, k, s, id, name) == WithMark(s, name) && Undisturbed(s, Handled(w, k, s, id, name), w.me, id)
  {
    MarkedKeeps(s, name, w.me, id);
    if w.removeInvalid {
      RemovedKeeps(w, k, s, id, name);
    }
  }

  lemma RemovedKeeps(w: World, k: nat, s: System, id: nat, name: Token)
    requires SlotInv(s) && Fair(w) && HasName(s, w.me, id, name) && w.removeInvalid
    ensures Kept(s, Handled(w, k, s, id, name), w.me) && !Live(Handled(w, k, s, id, name), id)
  {
    var marked := WithMark(s, name);
    MarkedKeeps(s, name, w.me, id);
    var c := Interfered(w, k, marked, id);
    InterferedKeeps(w, k, marked, id);
    KeptTransitive(s, marked, c, w.me);
    StillNamed(s, c, w.me, id, name);
    var left := Step(c, Deleting({name}));
    DeletedKeeps(c, w.me, id, name);
    KeptTransitive(s, c, left, w.me);
    if ResolveIn(c.pool, name) !in c.pool.accounts {
      StillNamed(c, left, w.me, id, name);
      MarkedAgain(w, k, left, id, name);
      KeptTransitive(s, left, Handled(w, k, s, id, name), w.me);
    }
  }

  lemma MarkedAgain(w: World, k: nat, s: System, id: nat, name: Token)
    requires SlotInv(s) && Fair(w) && HasName(s, w.me, id, name) && !Live(s, id)
    ensures Kept(s, WithMark(Interfered(w, k, s, id), name), w.me) && !Live(WithMark(Interfered(w, k, s, id), name), id)
  {
    var c := Interfered(w, k, s, id);
    InterferedKeeps(w, k, s, id);
    MarkedKeeps(c, name, w.me, id);
    KeptTransitive(s, c, WithMark(c, name), w.me);
    assert SameLease(s.leases[id], WithMark(c, name).leases[id]);
  }

  // ---- A refresh ----

  datatype Attempted = Again | Returned(result: Option<Token>, died: bool)

  /** The account that the token stands for can be refreshed, and the caller wants it. */
  ghost predicate Asks(w: World, k: nat, p: Pool, name: Token, force: bool) {
    var t := ResolveIn(p, name);
    t in p.accounts && p.accounts[t].refreshToken != "" && (force || w.due(k))
  }

  /** The state in which the token endpoint is asked. */
  ghost function AskedIn(w: World, k: nat, s: System, id: nat, name: Token): System {
    Interfered(w, k, Named(s, id, ResolveIn(s.pool, name)), id)
  }

  /** The credential pair that is asked with. */
  ghost function PairOf(p: Pool, name: Token): Expected
    requires ResolveIn(p, name) in p.accounts
  {
    Exactly(ResolveIn(p, name), p.accounts[ResolveIn(p, name)].refreshToken)
  }

  /** What the answer leads to. */
  ghost function Concluded(w: World, k: nat, s: System, id: nat, pair: Expected): (System, Attempted)
    requires pair.Exactly?
  {
    match w.refresh(k, s)
    case Raised => (s, Returned(None, false))
    case Dead => (Handled(w, k, s, id, pair.access), Returned(Some(pair.access), true))
    case Answer(data) =>
      var applied := ApplyResult(s.pool, pair.access, data, pair);
      var after := Step(s, Applying(pair.access, data, pair));
      if applied.Installed? then (Named(after, id, applied.token), Returned(Some(applied.token), false)) else (after, Again)
  }

  /** One attempt of a refresh: reads the credential pair, asks for tokens, and installs them only if
      the pair is still current. `died` reports that the refresh credential was found dead. */
  ghost function Attempt(w: World, k: nat, s: System, id: nat, name: Token, force: bool): (System, Attempted) {
    var t := ResolveIn(s.pool, name);
    if Asks(w, k, s.pool, name, force) then Concluded(w, k, AskedIn(w, k, s, id, name), id, PairOf(s.pool, name))
    else (Named(s, id, t), Returned(Some(if t in s.pool.accounts then t else name), false))
  }

  datatype Refresh = Refresh(state: System, result: Option<Token>, died: bool)

  /** The turns of a loop that consults the world: the next one, and how many are left. */
  datatype Turns = Turns(next: nat, left: nat)

  function Onwards(t: Turns): Turns
    requires t.left > 0
  {
    Turns(t.next + 1, t.left - 1)
  }

  /** A refresh with so many attempts left. */
  ghost function RefreshingFrom(w: World, t: Turns, s: System, id: nat, name: Token, force: bool): Refresh
    decreases t.left
  {
    if t.left == 0 then Refresh(Named(s, id, ResolveIn(s.pool, name)), Some(ResolveIn(s.pool, name)), false)
    else
      var (b, r) := Attempt(w, t.next, s, id, name, force);
      if r.Returned? then Refresh(b, r.result, r.died) else RefreshingFrom(w, Onwards(t), b, id, name, force)
  }

  /** `refresh_access_token`, in at most two attempts. None is a raised error. */
  ghost function Refreshing(w: World, k: nat, s: System, id: nat, name: Token, force: bool): Refresh {
    RefreshingFrom(w, Turns(k, 2), s, id, name, force)
  }

  lemma RefreshingOn(w: World, t: Turns, s: System, id: nat, name: Token, force: bool, b: System, r: Attempted)
    requires t.left > 0 && (b, r) == Attempt(w, t.next, s, id, name, force)
    ensures RefreshingFrom(w, t, s, id, name, force) ==
            if r.Returned? then Refresh(b, r.result, r.died) else RefreshingFrom(w, Onwards(t), b, id, name, force)
  {
  }

  /** What a piece of the check leaves of the lease: it is kept with the returned name, and its account
      survives unless its refresh credential was found dead under automatic removal. */
  ghost predicate Leaves(w: World, a: System, b: System, id: nat, result: Option<Token>, died: bool) {
    && Kept(a, b, w.me)
    && (result.Some? ==> HasName(b, w.me, id, result.value))
    && (if died && w.removeInvalid then !Live(b, id) else Undisturbed(a, b, w.me, id))
  }

  lemma AskedKeeps(w: World, k: nat, s: System, id: nat, name: Token)
    requires SlotInv(s) && Fair(w) && HasName(s, w.me, id, name)
    ensures Undisturbed(s, AskedIn(w, k, s, id, name), w.me, id)
    ensures HasName(AskedIn(w, k, s, id, name), w.me, id, ResolveIn(s.pool, name))
  {
    var t := ResolveIn(s.pool, name);
    ResolvedIsAgreed(s, w.me, id, name);
    NamedKeeps(s, w.me, id, t);
    InterferedKeeps(w, k, Named(s, id, t), id);
    UndisturbedTransitive(s, Named(s, id, t), AskedIn(w, k, s, id, name), w.me, id);
    StillNamed(Named(s, id, t), AskedIn(w, k, s, id, name), w.me, id, t);
  }

  lemma OwnAnswerIsPolite(s: System, e: Event, w: World, k: nat, id: nat)
    requires SlotInv(s) && Fair(w) && e.Applying? && w.refresh(k, s) == Answer(e.data)
    ensures Undisturbed(s, Step(s, e), w.me, id)
  {
    if Rotates(s.pool, e) {
      RotationEffect(s, e);
      assert NoLeaseVisits(s, RotatedTo(s.pool, e));
    }
    ApplyIsSparing(s, e, w.me, id);
    PoliteStep(s, e, w.me);
  }

  /** After an installation for a name of the lease, the installed token may be given as a name. */
  lemma InstalledIsAgreed(s: System, e: Event, me: nat, id: nat)
    requires SlotInv(s) && SlotInv(Step(s, e)) && e.Applying? && HasName(s, me, id, e.name)
    requires ApplyResult(s.pool, e.name, e.data, e.expected).Installed? && ResolveIn(s.pool, e.name) == e.name
    ensures Enabled(Step(s, e), Naming(id, ApplyResult(s.pool, e.name, e.data, e.expected).token))
  {
    var n, q := ApplyResult(s.pool, e.name, e.data, e.expected).token, Step(s, e);
    AppliedGraph(s, e);
    if Rotates(s.pool, e) {
      RotationEffect(s, e);
      RotationRedirects(Aliases(s.pool), e.name, n, e.name);
    }
    LiveResolvesToItself(q.pool, n);
    NameResolves(q, me, id, e.name);
  }

  lemma AnswerLeaves(w: World, k: nat, s: System, id: nat, pair: Expected)
    requires SlotInv(s) && Fair(w) && pair.Exactly? && HasName(s, w.me, id, pair.access) && w.refresh(k, s).Answer?
    ensures var (b, r) := Concluded(w, k, s, id, pair);
            Leaves(w, s, b, id, if r.Returned? then r.result else None, false) && (r.Returned? ==> !r.died)
  {
    var e := Applying(pair.access, w.refresh(k, s).data, pair);
    var applied := ApplyResult(s.pool, pair.access, w.refresh(k, s).data, pair);
    OwnAnswerIsPolite(s, e, w, k, id);
    if applied.Installed? {
      InstalledIsAgreed(s, e, w.me, id);
      NamedKeeps(Step(s, e), w.me, id, applied.token);
      UndisturbedTransitive(s, Step(s, e), Named(Step(s, e), id, applied.token), w.me, id);
    }
  }

  lemma ConcludedLeaves(w: World, k: nat, s: System, id: nat, pair: Expected)
    requires SlotInv(s) && Fair(w) && pair.Exactly? && HasName(s, w.me, id, pair.access)
    ensures var (b, r) := Concluded(w, k, s, id, pair);
            Leaves(w, s, b, id, if r.Returned? then r.result else None, r.Returned? && r.died)
  {
    match w.refresh(k, s)
    case Raised =>
    case Dead =>
      HandledKeeps(w, k, s, id, pair.access);
      StillNamed(s, Handled(w, k, s, id, pair.access), w.me, id, pair.access);
    case Answer(data) => AnswerLeaves(w, k, s, id, pair);
  }

  lemma LeavesTransitive(w: World, a: System, b: System, c: System, id: nat, result: Option<Token>, died: bool)
    requires Undisturbed(a, b, w.me, id) && Leaves(w, b, c, id, result, died)
    ensures Leaves(w, a, c, id, result, died)
  {
    KeptTransitive(a, b, c, w.me);
    if !(died && w.removeInvalid) {
      UndisturbedTransitive(a, b, c, w.me, id);
    }
  }

  lemma AttemptLeaves(w: World, k: nat, s: System, id: nat, name: Token, force: bool)
    requires SlotInv(s) && Fair(w) && HasName(s, w.me, id, name)
    ensures var (b, r) := Attempt(w, k, s, id, name, force);
            Leaves(w, s, b, id, if r.Returned? then r.result else None, r.Returned? && r.died)
  {
    var (b, r) := Attempt(w, k, s, id, name, force);
    if Asks(w, k, s.pool, name, force) {
      AskedKeeps(w, k, s, id, name);
      ConcludedLeaves(w, k, AskedIn(w, k, s, id, name), id, PairOf(s.pool, name));
      LeavesTransitive(w, s, AskedIn(w, k, s, id, name), b, id, if r.Returned? then r.result else None, r.Returned? && r.died);
    } else {
      QuietAttemptLeaves(w, s, id, name);
    }
  }

  lemma QuietAttemptLeaves(w: World, s: System, id: nat, name: Token)
    requires SlotInv(s) && HasName(s, w.me, id, name)
    ensures var t := ResolveIn(s.pool, name);
            Leaves(w, s, Named(s, id, t), id, Some(t), false) && Leaves(w, s, Named(s, id, t), id, Some(name), false)
  {
    var t := ResolveIn(s.pool, name);
    ResolvedIsAgreed(s, w.me, id, name);
    NamedKeeps(s, w.me, id, t);
    StillNamed(s, Named(s, id, t), w.me, id, name);
  }

  lemma {:induction false} RefreshingFromLeaves(w: World, t: Turns, s: System, id: nat, name: Token, force: bool)
    requires SlotInv(s) && Fair(w) && HasName(s, w.me, id, name)
    ensures var r := RefreshingFrom(w, t, s, id, name, force); Leaves(w, s, r.state, id, r.result, r.died)
    decreases t.left
  {
    if t.left == 0 {
      QuietAttemptLeaves(w, s, id, name);
    } else {
      var (b, r) := Attempt(w, t.next, s, id, name, force);
      AttemptLeaves(w, t.next, s, id, name, force);
      RefreshingOn(w, t, s, id, name, force, b, r);
      if r.Again? {
        StillNamed(s, b, w.me, id, name);
        RefreshingFromLeaves(w, Onwards(t), b, id, name, force);
        var rest := RefreshingFrom(w, Onwards(t), b, id, name, force);
        LeavesTransitive(w, s, b, rest.state, id, rest.result, rest.died);
      }
    }
  }

  lemma RefreshingLeaves(w: World, k: nat, s: System, id: nat, name: Token, force: bool)
    requires SlotInv(s) && Fair(w) && HasName(s, w.me, id, name)
    ensures var r := Refreshing(w, k, s, id, name, force); Leaves(w, s, r.state, id, r.result, r.died)
  {
    RefreshingFromLeaves(w, Turns(k, 2), s, id, name, force);
  }

  // ---- When a refresh finds the credential dead ----

  /** The request of one attempt is sent and answered by the end of the credential. */
  ghost predicate DiesAt(w: World, k: nat, s: System, id: nat, name: Token, force: bool) {
    Asks(w, k, s.pool, name, force) && w.refresh(k, AskedIn(w, k, s, id, name)).Dead?
  }

  /** The request of one attempt is answered with tokens whose pair is not current any more. */
  ghost predicate Retries(w: World, k: nat, s: System, id: nat, name: Token, force: bool) {
    && Asks(w, k, s.pool, name, force)
    && var b := AskedIn(w, k, s, id, name);
       w.refresh(k, b).Answer? && !ApplyResult(b.pool, PairOf(s.pool, name).access, w.refresh(k, b).data, PairOf(s.pool, name)).Installed?
  }

  /** The refresh finds the credential dead, at once or when it asks again. */
  ghost predicate Dies(w: World, k: nat, s: System, id: nat, name: Token, force: bool) {
    || DiesAt(w, k, s, id, name, force)
    || (Retries(w, k, s, id, name, force) && DiesAt(w, k + 1, AskedIn(w, k, s, id, name), id, name, force))
  }

  lemma AttemptDiesIff(w: World, k: nat, s: System, id: nat, name: Token, force: bool)
    ensures var (b, r) := Attempt(w, k, s, id, name, force);
            && (r.Returned? && r.died <==> DiesAt(w, k, s, id, name, force))
            && (r.Again? <==> Retries(w, k, s, id, name, force))
            && (r.Again? ==> b == AskedIn(w, k, s, id, name))
  {
  }

  lemma RefreshingFromDiesIff(w: World, t: Turns, s: System, id: nat, name: Token, force: bool)
    requires t.left > 0
    ensures RefreshingFrom(w, t, s, id, name, force).died <==>
            || DiesAt(w, t.next, s, id, name, force)
            || (Retries(w, t.next, s, id, name, force) &&
                RefreshingFrom(w, Onwards(t), AskedIn(w, t.next, s, id, name), id, name, force).died)
  {
    var (b, r) := Attempt(w, t.next, s, id, name, force);
    AttemptDiesIff(w, t.next, s, id, name, force);
    RefreshingOn(w, t, s, id, name, force, b, r);
  }

  lemma LastAttemptDiesIff(w: World, t: Turns, s: System, id: nat, name: Token, force: bool)
    requires t.left == 1
    ensures RefreshingFrom(w, t, s, id, name, force).died <==> DiesAt(w, t.next, s, id, name, force)
  {
    RefreshingFromDiesIff(w, t, s, id, name, force);
  }

  lemma SecondAttemptDiesIff(w: World, k: nat, b: System, id: nat, name: Token, force: bool)
    ensures RefreshingFrom(w, Onwards(Turns(k, 2)), b, id, name, force).died <==> DiesAt(w, k + 1, b, id, name, force)
  {
    LastAttemptDiesIff(w, Onwards(Turns(k, 2)), b, id, name, force);
  }

  lemma FirstAttemptDiesIff(w: World, k: nat, s: System, id: nat, name: Token, force: bool)
    ensures Refreshing(w, k, s, id, name, force).died <==>
            || DiesAt(w, k, s, id, name, force)
            || (Retries(w, k, s, id, name, force) &&
                RefreshingFrom(w, Onwards(Turns(k, 2)), AskedIn(w, k, s, id, name), id, name, force).died)
  {
    RefreshingFromDiesIff(w, Turns(k, 2), s, id, name, force);
  }

  /** The exact case in which a refresh reports a dead credential, before it is made. */
  lemma RefreshingDiesIff(w: World, k: nat, s: System, id: nat, name: Token, force: bool)
    ensures Refreshing(w, k, s, id, name, force).died <==> Dies(w, k, s, id, name, force)
  {
    FirstAttemptDiesIff(w, k, s, id, name, force);
    SecondAttemptDiesIff(w, k, AskedIn(w, k, s, id, name), id, name, force);
  }

  // ---- The remote part of a check ----

  datatype Probed = ProbeFailed | Probe(active: Token, account: Account, died: bool)

  /** The query that decides a check: the first one, or the second one when the first found the token
      rejected. */
  ghost predicate Decides(w: World, k: nat, asked: nat) {
    asked == k || (asked == k + 1 && w.info(k).InvalidToken?)
  }

  function ActiveName(pre: Refresh, name: Token): Token {
    if pre.result.Some? then pre.result.value else name
  }

  /** The turn of the others between the opportunistic refresh and the first query. */
  function SecondTurn(k: nat): nat {
    k + 2
  }

  /** The state in which the first query is made. */
  ghost function QueriedIn(w: World, k: nat, s: System, id: nat, name: Token): System {
    Interfered(w, SecondTurn(k), Refreshing(w, k, s, id, name, false).state, id)
  }

  lemma QueriedAfter(w: World, k: nat, s: System, id: nat, name: Token, b: System)
    requires b == Refreshing(w, k, s, id, name, false).state
    ensures QueriedIn(w, k, s, id, name) == Interfered(w, SecondTurn(k), b, id)
  {
  }

  /** An opportunistic refresh, the account query, and a forced refresh with a second query when the token
      was rejected: the state afterwards, the answer, and the query that decided. */
  ghost function Probing(w: World, k: nat, s: System, id: nat, name: Token): (System, Probed, nat) {
    var pre := Refreshing(w, k, s, id, name, false);
    var c := QueriedIn(w, k, s, id, name);
    match w.info(k)
    case Fields(account) => (c, Probe(ActiveName(pre, name), account, pre.died), k)
    case Failed => (c, ProbeFailed, k)
    case InvalidToken => ProbingAgain(w, k, c, id, ActiveName(pre, name), pre.died)
  }

  /** The second query, under the token of the forced refresh. */
  ghost function SecondQuery(w: World, k: nat, s: System, id: nat, name: Token, died: bool): (System, Probed, nat) {
    var d := Interfered(w, k + 5, s, id);
    match w.info(k + 1)
    case Fields(account) => (d, Probe(name, account, died), k + 1)
    case InvalidToken => (Handled(w, k + 6, d, id, name), ProbeFailed, k + 1)
    case Failed => (d, ProbeFailed, k + 1)
  }

  /** The forced refresh has brought another token. */
  predicate BringsAnother(forced: Refresh, active: Token) {
    forced.result.Some? && forced.result.value != "" && forced.result.value != active
  }

  ghost function ProbingAgain(w: World, k: nat, s: System, id: nat, active: Token, died: bool): (System, Probed, nat) {
    var forced := Refreshing(w, k + 3, s, id, active, true);
    if BringsAnother(forced, active) then SecondQuery(w, k, forced.state, id, forced.result.value, died || forced.died)
    else (Handled(w, k + 6, forced.state, id, active), ProbeFailed, k)
  }

  /** What the remote part of a check leaves and tells. */
  ghost predicate ProbedSo(w: World, k: nat, a: System, b: System, id: nat, r: Probed, asked: nat) {
    && Kept(a, b, w.me) && Decides(w, k, asked)
    && (r.Probe? <==> w.info(asked).Fields?)
    && (r.Probe? ==> r.account == w.info(asked).account && Leaves(w, a, b, id, Some(r.active), r.died))
  }

  lemma AnswerIsProbed(w: World, k: nat, a: System, b: System, id: nat, active: Token, account: Account, died: bool, asked: nat)
    requires Leaves(w, a, b, id, Some(active), died) && Decides(w, k, asked) && w.info(asked) == Fields(account)
    ensures ProbedSo(w, k, a, b, id, Probe(active, account, died), asked)
  {
  }

  lemma FailureIsProbed(w: World, k: nat, a: System, b: System, id: nat, asked: nat)
    requires Kept(a, b, w.me) && Decides(w, k, asked) && !w.info(asked).Fields?
    ensures ProbedSo(w, k, a, b, id, ProbeFailed, asked)
  {
  }

  lemma NameAfterRefresh(w: World, k: nat, s: System, id: nat, name: Token)
    requires SlotInv(s) && Fair(w) && HasName(s, w.me, id, name)
    ensures var pre, c := Refreshing(w, k, s, id, name, false), QueriedIn(w, k, s, id, name);
            Leaves(w, s, c, id, Some(ActiveName(pre, name)), pre.died)
  {
    var pre := Refreshing(w, k, s, id, name, false);
    RefreshingLeaves(w, k, s, id, name, false);
    StillNamed(s, pre.state, w.me, id, name);
    ThenInterfered(w, SecondTurn(k), s, pre.state, id, ActiveName(pre, name), pre.died);
  }

  lemma ThenInterfered(w: World, k: nat, a: System, b: System, id: nat, name: Token, died: bool)
    requires Fair(w) && Holds(a, w.me, id) && Leaves(w, a, b, id, Some(name), died)
    ensures Leaves(w, a, Interfered(w, k, b, id), id, Some(name), died)
  {
    var c := Interfered(w, k, b, id);
    InterferedKeeps(w, k, b, id);
    KeptTransitive(a, b, c, w.me);
    StillNamed(b, c, w.me, id, name);
    if !(died && w.removeInvalid) {
      UndisturbedTransitive(a, b, c, w.me, id);
    }
  }

  lemma ProbingLeaves(w: World, k: nat, s: System, id: nat, name: Token)
    requires SlotInv(s) && Fair(w) && HasName(s, w.me, id, name)
    ensures var (b, r, asked) := Probing(w, k, s, id, name); ProbedSo(w, k, s, b, id, r, asked)
  {
    NameAfterRefresh(w, k, s, id, name);
    var pre, c := Refreshing(w, k, s, id, name, false), QueriedIn(w, k, s, id, name);
    match w.info(k)
    case Fields(account) => AnswerIsProbed(w, k, s, c, id, ActiveName(pre, name), account, pre.died, k);
    case Failed => FailureIsProbed(w, k, s, c, id, k);
    case InvalidToken => ProbingAgainLeaves(w, k, s, c, id, ActiveName(pre, name), pre.died);
  }

  lemma ForcedLeaves(w: World, k: nat, a: System, s: System, id: nat, active: Token, died: bool)
    requires Fair(w) && Holds(a, w.me, id) && Leaves(w, a, s, id, Some(active), died)
    ensures var forced := Refreshing(w, k, s, id, active, true);
            && Leaves(w, a, forced.state, id, forced.result, died || forced.died)
            && HasName(forced.state, w.me, id, active)
  {
    var forced := Refreshing(w, k, s, id, active, true);
    RefreshingLeaves(w, k, s, id, active, true);
    KeptTransitive(a, s, forced.state, w.me);
    StillNamed(s, forced.state, w.me, id, active);
    assert Holds(s, w.me, id);
    if died && w.removeInvalid {
      assert !Live(forced.state, id);
    } else if !(forced.died && w.removeInvalid) {
      UndisturbedTransitive(a, s, forced.state, w.me, id);
    }
  }

  lemma HandledAfter(w: World, k: nat, a: System, s: System, id: nat, name: Token)
    requires Fair(w) && Kept(a, s, w.me) && HasName(s, w.me, id, name)
    ensures Kept(a, Handled(w, k, s, id, name), w.me)
  {
    HandledKeeps(w, k, s, id, name);
    KeptTransitive(a, s, Handled(w, k, s, id, name), w.me);
  }

  lemma ProbingAgainLeaves(w: World, k: nat, a: System, s: System, id: nat, active: Token, died: bool)
    requires Fair(w) && Holds(a, w.me, id) && Leaves(w, a, s, id, Some(active), died) && w.info(k).InvalidToken?
    ensures var (b, r, asked) := ProbingAgain(w, k, s, id, active, died); ProbedSo(w, k, a, b, id, r, asked)
  {
    var forced := Refreshing(w, k + 3, s, id, active, true);
    ForcedLeaves(w, k + 3, a, s, id, active, died);
    if BringsAnother(forced, active) {
      SecondQueryLeaves(w, k, a, forced.state, id, forced.result.value, died || forced.died);
    } else {
      NoSecondQuery(w, k, a, forced.state, id, active);
    }
  }

  lemma SecondQueryLeaves(w: World, k: nat, a: System, b: System, id: nat, name: Token, died: bool)
    requires Fair(w) && Holds(a, w.me, id) && Leaves(w, a, b, id, Some(name), died) && w.info(k).InvalidToken?
    ensures var (c, r, asked) := SecondQuery(w, k, b, id, name, died); ProbedSo(w, k, a, c, id, r, asked)
  {
    var d := Interfered(w, k + 5, b, id);
    ThenInterfered(w, k + 5, a, b, id, name, died);
    match w.info(k + 1)
    case Fields(account) => AnswerIsProbed(w, k, a, d, id, name, account, died, k + 1);
    case InvalidToken =>
      HandledAfter(w, k + 6, a, d, id, name);
      FailureIsProbed(w, k, a, Handled(w, k + 6, d, id, name), id, k + 1);
    case Failed => FailureIsProbed(w, k, a, d, id, k + 1);
  }

  lemma NoSecondQuery(w: World, k: nat, a: System, s: System, id: nat, active: Token)
    requires Fair(w) && Kept(a, s, w.me) && HasName(s, w.me, id, active) && w.info(k).InvalidToken?
    ensures ProbedSo(w, k, a, Handled(w, k + 6, s, id, active), id, ProbeFailed, k)
  {
    HandledAfter(w, k + 6, a, s, id, active);
    FailureIsProbed(w, k, a, Handled(w, k + 6, s, id, active), id, k);
  }

  // ---- The check ----

  datatype Checked = CheckFailed | Info(account: Account, died: bool)

  /** The account that a check reports: the record of the deciding answer under its current token. */
  predicate SameRecord(a: Account, b: Account) {
    a.(accessToken := "") == b.(accessToken := "")
  }

  /** `_record_refresh_success` and `update_account` with an answer, and the record that comes back. */
  ghost function Recording(w: World, s: System, id: nat, active: Token, answer: Account): (System, Account) {
    var t := ResolveIn(s.pool, active);
    var kept := t in s.pool.accounts && !(answer.status.Limited? && w.removeLimited);
    (Step(Named(s, id, t), Updating(active, answer, w.removeLimited)), answer.(accessToken := if kept then t else active))
  }

  /** The end of a check, after its remote part. */
  ghost function Fetched(w: World, k: nat, b: System, id: nat, probed: Probed): (System, Checked) {
    if probed.ProbeFailed? then (b, CheckFailed)
    else
      var (n, account) := Recording(w, Interfered(w, k + 7, b, id), id, probed.active, probed.account);
      (n, Info(account, probed.died))
  }

  /** `fetch_remote_info`: the state afterwards, what it reports, and the query that decided. */
  ghost function Fetching(w: World, k: nat, s: System, id: nat, name: Token): (System, Checked, nat) {
    var (b, probed, asked) := Probing(w, k, s, id, name);
    var (n, r) := Fetched(w, k, b, id, probed);
    (n, r, asked)
  }

  /** What a check tells about the slot `id` that it was made for: an account if and only if the deciding
      query was answered with one, and then that record. The record is that of the pool, except when the
      account was removed by the check itself: because the remote end confirmed its quota exhausted, or
      because its refresh credential was found dead. */
  ghost predicate Reported(a: System, s: System, w: World, id: nat, checked: Checked, answer: InfoReply) {
    && Kept(a, s, w.me) && Holds(s, w.me, id)
    && (checked.Info? <==> answer.Fields?)
    && (checked.Info? ==> SameRecord(checked.account, answer.account) && IsName(s.leases[id], checked.account.accessToken))
    && (checked.Info? && checked.died && w.removeInvalid ==> !Live(s, id))
    && (checked.Info? && Live(a, id) && !(checked.died && w.removeInvalid) && !(checked.account.status.Limited? && w.removeLimited) ==>
          && Live(s, id)
          && checked.account.accessToken == AccountOf(s, id)
          && s.pool.accounts[checked.account.accessToken] == checked.account)
  }

  lemma RecordedAnswer(s: System, w: World, id: nat, active: Token, answer: Account)
    requires SlotInv(s) && HasName(s, w.me, id, active)
    ensures var n, t := Step(s, Updating(active, answer, w.removeLimited)), ResolveIn(s.pool, active);
            && Kept(s, n, w.me)
            && (Live(s, id) && !(answer.status.Limited? && w.removeLimited) ==>
                  t in s.pool.accounts && Live(n, id) && AccountOf(n, id) == t && n.pool.accounts[t] == answer.(accessToken := t))
  {
    UpdateIsPolite(s, active, answer, w.removeLimited, w.me, id);
    PoliteStep(s, Updating(active, answer, w.removeLimited), w.me);
    NameResolves(s, w.me, id, active);
    UpdatedGraph(s.pool, active, answer, w.removeLimited);
  }

  lemma RecordingKeeps(w: World, s: System, id: nat, active: Token, answer: Account)
    requires SlotInv(s) && HasName(s, w.me, id, active)
    ensures var (n, account) := Recording(w, s, id, active, answer);
            && Kept(s, n, w.me) && SameRecord(account, answer) && HasName(n, w.me, id, account.accessToken)
            && (Live(s, id) && !(answer.status.Limited? && w.removeLimited) ==>
                  Live(n, id) && account.accessToken == AccountOf(n, id) && n.pool.accounts[account.accessToken] == account)
  {
    var t := ResolveIn(s.pool, active);
    var b := Named(s, id, t);
    var n := Step(b, Updating(active, answer, w.removeLimited));
    ResolvedIsAgreed(s, w.me, id, active);
    NamedKeeps(s, w.me, id, t);
    StillNamed(s, b, w.me, id, active);
    RecordedAnswer(b, w, id, active, answer);
    KeptTransitive(s, b, n, w.me);
    StillNamed(b, n, w.me, id, t);
    StillNamed(b, n, w.me, id, active);
  }

  lemma FetchingReports(w: World, k: nat, s: System, id: nat, name: Token)
    requires SlotInv(s) && Fair(w) && HasName(s, w.me, id, name)
    ensures var (n, r, asked) := Fetching(w, k, s, id, name);
            Decides(w, k, asked) && Reported(s, n, w, id, r, w.info(asked))
  {
    var (b, probed, asked) := Probing(w, k, s, id, name);
    ProbingLeaves(w, k, s, id, name);
    FetchedReports(w, k, s, b, id, name, probed, asked);
  }

  lemma FetchedReports(w: World, k: nat, s: System, b: System, id: nat, name: Token, probed: Probed, asked: nat)
    requires SlotInv(s) && Fair(w) && HasName(s, w.me, id, name) && ProbedSo(w, k, s, b, id, probed, asked)
    ensures var (n, r) := Fetched(w, k, b, id, probed); Reported(s, n, w, id, r, w.info(asked))
  {
    if probed.Probe? {
      ThenInterfered(w, k + 7, s, b, id, probed.active, probed.died);
      RecordingReports(w, s, Interfered(w, k + 7, b, id), id, probed, w.info(asked));
    } else {
      StillNamed(s, b, w.me, id, name);
    }
  }

  lemma RecordingReports(w: World, a: System, c: System, id: nat, probed: Probed, answer: InfoReply)
    requires probed.Probe? && answer == Fields(probed.account) && Holds(a, w.me, id)
    requires Leaves(w, a, c, id, Some(probed.active), probed.died)
    ensures var (n, account) := Recording(w, c, id, probed.active, probed.account);
            Reported(a, n, w, id, Info(account, probed.died), answer)
  {
    var (n, account) := Recording(w, c, id, probed.active, probed.account);
    RecordingKeeps(w, c, id, probed.active, probed.account);
    KeptTransitive(a, c, n, w.me);
    assert account.status == account.(accessToken := "").status == probed.account.(accessToken := "").status;
  }

  // ---- When a check finds the credential dead ----

  /** A refresh request that the check sends is answered by the end of the credential: one of the
      opportunistic refresh, or one of the forced refresh after a rejected token. */
  ghost predicate FindsDead(w: World, k: nat, s: System, id: nat, name: Token) {
    || Dies(w, k, s, id, name, false)
    || (w.info(k).InvalidToken? &&
        Dies(w, k + 3, QueriedIn(w, k, s, id, name), id, ActiveName(Refreshing(w, k, s, id, name, false), name), true))
  }

  lemma ProbingAgainDiesIff(w: World, k: nat, s: System, id: nat, active: Token, died: bool)
    ensures var r := ProbingAgain(w, k, s, id, active, died).1;
            r.Probe? ==> (r.died <==> died || Dies(w, k + 3, s, id, active, true))
  {
    RefreshingDiesIff(w, k + 3, s, id, active, true);
  }

  lemma ProbingDiesIff(w: World, k: nat, s: System, id: nat, name: Token)
    ensures var r := Probing(w, k, s, id, name).1;
            r.Probe? ==> (r.died <==> FindsDead(w, k, s, id, name))
  {
    var pre := Refreshing(w, k, s, id, name, false);
    RefreshingDiesIff(w, k, s, id, name, false);
    if w.info(k).InvalidToken? {
      ProbingAgainDiesIff(w, k, QueriedIn(w, k, s, id, name), id, ActiveName(pre, name), pre.died);
    }
  }

  /** The exact case in which a check that reports an account has found its credential dead. */
  lemma FetchingDiesIff(w: World, k: nat, s: System, id: nat, name: Token)
    ensures var r := Fetching(w, k, s, id, name).1;
            r.Info? ==> (r.died <==> FindsDead(w, k, s, id, name))
  {
    ProbingDiesIff(w, k, s, id, name);
    var (b, probed, asked) := Probing(w, k, s, id, name);
    assert Fetching(w, k, s, id, name).1 == Fetched(w, k, b, id, probed).1;
  }

  /** No refresh answer that the check can get is the end of the credential. */
  ghost predicate NeverDead(w: World, k: nat) {
    forall j, s :: j in {k, k + 1, k + 3, k + 4} ==> !w.refresh(j, s).Dead?
  }

  /** Every refresh answer that the check can get is the end of the credential. */
  ghost predicate AlwaysDead(w: World, k: nat) {
    forall j, s :: j in {k, k + 1, k + 3, k + 4} ==> w.refresh(j, s).Dead?
  }

  /** The account of the lease has a refresh token. */
  ghost predicate Renewable(s: System, id: nat) {
    Live(s, id) && s.pool.accounts[AccountOf(s, id)].refreshToken != ""
  }

  lemma AsksIffRenewable(w: World, k: nat, s: System, me: nat, id: nat, name: Token, force: bool)
    requires SlotInv(s) && HasName(s, me, id, name)
    ensures Asks(w, k, s.pool, name, force) <==> Renewable(s, id) && (force || w.due(k))
  {
    NameResolves(s, me, id, name);
  }

  /** What a caller can read off before the check: without dead answers none is found, and with nothing but
      dead answers one is found by the opportunistic refresh if and only if that is due for an account with
      a refresh token. */
  lemma FindsDeadForeseen(w: World, k: nat, s: System, id: nat, name: Token)
    requires SlotInv(s) && HasName(s, w.me, id, name)
    ensures NeverDead(w, k) ==> !FindsDead(w, k, s, id, name)
    ensures AlwaysDead(w, k) && w.due(k) && Renewable(s, id) ==> FindsDead(w, k, s, id, name)
    ensures AlwaysDead(w, k) && !w.info(k).InvalidToken? ==> (FindsDead(w, k, s, id, name) <==> w.due(k) && Renewable(s, id))
  {
    AsksIffRenewable(w, k, s, w.me, id, name, false);
  }
}
