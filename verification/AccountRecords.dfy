/** What happens to the record of one account over any run of the lock regions: which regions change which
    field, when an exhausted account comes back, and how results are counted. The account is followed under
    the tokens that it is renamed to. */
module AccountRecords {
  import opened Sequences
  import opened AliasGraph
  import opened AccountPool
  import opened SlotConservation
  import opened SlotFairness

  // ---- Following one account ----

  /** The token that the account of `u` has after the event. */
  function Successor(p: Pool, e: Event, u: Token): Token {
    if Rotates(p, e) && ResolveIn(p, e.name) == u then RotatedTo(p, e)
    else if e.Reimporting? && e.existing == u then e.token
    else u
  }

  ghost function Followed(s: System, es: seq<Event>, t: Token): Token {
    if es == [] then t
    else
      var init := es[..|es| - 1];
      Successor(Run(s, init).pool, es[|es| - 1], Followed(s, init, t))
  }

  /** The account stays in the pool throughout the run. */
  ghost predicate Stays(s: System, es: seq<Event>, t: Token) {
    Followed(s, es, t) in Run(s, es).pool.accounts && (es == [] || Stays(s, es[..|es| - 1], t))
  }

  /** The record of the account after the run. */
  ghost function RecordAfter(s: System, es: seq<Event>, t: Token): Account
    requires Followed(s, es, t) in Run(s, es).pool.accounts
  {
    Run(s, es).pool.accounts[Followed(s, es, t)]
  }

  // ---- One event ----

  /** The result is charged to the account: the settled name stands for it, and so does the token that the
      result is expected for, if one is given. */
  predicate Charges(p: Pool, e: Event, u: Token) {
    e.Settling? && e.how.Marked? && ResolveIn(p, e.name) == u
    && (e.how.outcome.expected.Some? ==> ResolveIn(p, e.how.outcome.expected.value) == u)
  }

  /** The token response is installed for the account. */
  predicate Installs(p: Pool, e: Event, u: Token) {
    e.Applying? && ResolveIn(p, e.name) == u && ApplyResult(p, e.name, e.data, e.expected).Installed?
  }

  /** The record of the account is written anew: by an update, an import or a re-import. */
  predicate Rewrites(p: Pool, e: Event, u: Token) {
    || (e.Updating? && ResolveIn(p, e.name) == u)
    || (e.Importing? && e.token == u)
    || (e.Reimporting? && e.existing == u)
  }

  predicate Exhausts(p: Pool, e: Event, u: Token) {
    e.Settling? && e.how.Exhausted? && ResolveIn(p, e.name) == u
  }

  /** How the record `b` comes out of the record `a` in an event that does not write it anew. */
  ghost predicate ChangesTo(p: Pool, e: Event, u: Token, a: Account, b: Account) {
    if Installs(p, e, u) then b == Refreshed(a, Successor(p, e, u), e.data)
    else if Charges(p, e, u) then b == Charged(a, e.how.outcome)
    else if Exhausts(p, e, u) then b == a.(status := Limited, quota := 0, quotaUnknown := false)
    else b == a
  }

  lemma ApplyingRecord(p: Pool, e: Event, u: Token)
    requires e.Applying? && u in p.accounts && Successor(p, e, u) in StepPool(p, e).accounts
    ensures ChangesTo(p, e, u, p.accounts[u], StepPool(p, e).accounts[Successor(p, e, u)])
  {
    var t := ResolveIn(p, e.name);
    if Rotates(p, e) {
      var n := RotatedTo(p, e);
      RotatedAccounts(p, t, n, Refreshed(p.accounts[t], n, e.data));
      assert StepPool(p, e) == RotatePool(p, t, n, Refreshed(p.accounts[t], n, e.data));
    }
  }

  lemma RotatedAccounts(p: Pool, t: Token, n: Token, a: Account)
    ensures RotatePool(p, t, n, a).accounts == (p.accounts - {t})[n := a]
  {
  }

  lemma SettlingRecord(p: Pool, e: Event, u: Token)
    requires PoolOk(p) && e.Settling? && u in p.accounts && u in StepPool(p, e).accounts
    ensures ChangesTo(p, e, u, p.accounts[u], StepPool(p, e).accounts[u])
  {
    var t := ResolveIn(p, e.name);
    match e.how
    case Plain =>
    case Marked(o) =>
      assert o.expected.Some? ==> Aliases(ReleaseSlot(p, t)) == Aliases(p);
    case Exhausted(autoRemove) =>
  }

  lemma RemovingRecord(p: Pool, e: Event, u: Token)
    requires e.Updating? || e.Deleting?
    requires u in p.accounts && u in StepPool(p, e).accounts && !Rewrites(p, e, u)
    ensures StepPool(p, e).accounts[u] == p.accounts[u]
  {
  }

  lemma OtherRecord(s: System, e: Event, u: Token)
    requires Enabled(s, e) && !e.Applying? && !e.Settling? && !e.Updating? && !e.Deleting?
    requires u in s.pool.accounts && u in StepPool(s.pool, e).accounts && !Rewrites(s.pool, e, u)
    ensures StepPool(s.pool, e).accounts[u] == s.pool.accounts[u]
  {
  }

  /** The record that the event leaves of an account that stays in the pool. */
  lemma RecordStep(s: System, e: Event, u: Token)
    requires PoolOk(s.pool) && Enabled(s, e) && u in s.pool.accounts && !Rewrites(s.pool, e, u)
    requires Successor(s.pool, e, u) in StepPool(s.pool, e).accounts
    ensures ChangesTo(s.pool, e, u, s.pool.accounts[u], StepPool(s.pool, e).accounts[Successor(s.pool, e, u)])
  {
    match e
    case Applying(_, _, _) => ApplyingRecord(s.pool, e, u);
    case Settling(_, _, _) => SettlingRecord(s.pool, e, u);
    case Updating(_, _, _) => RemovingRecord(s.pool, e, u);
    case Deleting(_) => RemovingRecord(s.pool, e, u);
    case _ => OtherRecord(s, e, u);
  }

  /** The record that a rewriting event brings. */
  function Brought(e: Event): Account
    requires e.Updating? || e.Importing? || e.Reimporting?
  {
    e.account
  }

  lemma RewriteStep(s: System, e: Event, u: Token)
    requires PoolOk(s.pool) && Enabled(s, e) && u in s.pool.accounts && Rewrites(s.pool, e, u)
    requires Successor(s.pool, e, u) in StepPool(s.pool, e).accounts
    ensures StepPool(s.pool, e).accounts[Successor(s.pool, e, u)] == Brought(e).(accessToken := Successor(s.pool, e, u))
  {
  }

  // ---- Which events change a field ----

  datatype Field = StatusField | QuotaField | PlanField | SourceField | SuccessField | FailField | CredentialField

  predicate SameIn(a: Account, b: Account, f: Field) {
    match f
    case StatusField => a.status == b.status
    case QuotaField => a.quota == b.quota && a.quotaUnknown == b.quotaUnknown
    case PlanField => a.plan == b.plan
    case SourceField => a.source == b.source
    case SuccessField => a.success == b.success
    case FailField => a.fail == b.fail
    case CredentialField => a.refreshToken == b.refreshToken
  }

  /** The event may change this field of the account. */
  predicate Sets(p: Pool, e: Event, u: Token, f: Field) {
    || Rewrites(p, e, u)
    || (Installs(p, e, u) && ((f.StatusField? && e.data.status.Some?) || (f.CredentialField? && e.data.refresh.Some?)))
    || (Exhausts(p, e, u) && (f.StatusField? || f.QuotaField?))
    || (Charges(p, e, u) &&
        match f
        case QuotaField => e.how.outcome.consumed
        case StatusField => e.how.outcome.consumed && u in p.accounts && p.accounts[u].status.Limited?
        case SuccessField => e.how.outcome.success
        case FailField => !e.how.outcome.success && e.how.outcome.verify
        case _ => false)
  }

  ghost predicate NeverSets(s: System, es: seq<Event>, t: Token, f: Field) {
    es == [] ||
    var init := es[..|es| - 1];
    NeverSets(s, init, t, f) && !Sets(Run(s, init).pool, es[|es| - 1], Followed(s, init, t), f)
  }

  lemma FieldOfChange(p: Pool, e: Event, u: Token, b: Account, f: Field)
    requires u in p.accounts && ChangesTo(p, e, u, p.accounts[u], b) && !Sets(p, e, u, f)
    ensures SameIn(p.accounts[u], b, f)
  {
  }

  lemma FieldStep(s: System, e: Event, u: Token, f: Field)
    requires PoolOk(s.pool) && Enabled(s, e) && u in s.pool.accounts
    requires Successor(s.pool, e, u) in StepPool(s.pool, e).accounts && !Sets(s.pool, e, u, f)
    ensures SameIn(s.pool.accounts[u], StepPool(s.pool, e).accounts[Successor(s.pool, e, u)], f)
  {
    RecordStep(s, e, u);
    FieldOfChange(s.pool, e, u, StepPool(s.pool, e).accounts[Successor(s.pool, e, u)], f);
  }

  lemma PrefixStays(s: System, es: seq<Event>, t: Token)
    requires es != [] && Stays(s, es, t)
    ensures var init, u := es[..|es| - 1], Followed(s, es[..|es| - 1], t);
            && Stays(s, init, t) && u in Run(s, init).pool.accounts
            && Run(s, es) == Step(Run(s, init), es[|es| - 1])
            && Followed(s, es, t) == Successor(Run(s, init).pool, es[|es| - 1], u)
            && Followed(s, es, t) in StepPool(Run(s, init).pool, es[|es| - 1]).accounts
  {
  }

  lemma PrefixEnabled(s: System, es: seq<Event>)
    requires es != [] && RunEnabled(s, es)
    ensures RunEnabled(s, es[..|es| - 1]) && Enabled(Run(s, es[..|es| - 1]), es[|es| - 1])
  {
    var init := es[..|es| - 1];
    forall i | 0 <= i < |init| ensures Enabled(Run(s, init[..i]), init[i]) {
      assert init[..i] == es[..i];
    }
  }

  /** Over every run a field of an account that stays in the pool is what it was, unless an event of the run
      may set it. */
  lemma {:induction false} FieldIsKept(s: System, es: seq<Event>, t: Token, f: Field)
    requires PoolOk(s.pool) && RunEnabled(s, es) && Stays(s, es, t) && NeverSets(s, es, t, f)
    ensures t in s.pool.accounts && SameIn(s.pool.accounts[t], RecordAfter(s, es, t), f)
    ensures PoolOk(Run(s, es).pool)
  {
    if es != [] {
      var init, e := es[..|es| - 1], es[|es| - 1];
      PrefixStays(s, es, t);
      PrefixEnabled(s, es);
      FieldIsKept(s, init, t, f);
      FieldStep(Run(s, init), e, Followed(s, init, t), f);
      StepKeepsPoolOk(Run(s, init), e);
    }
  }

  // ---- Status ----

  /** The status that the event gives the account, if it gives one. */
  function GivenStatus(p: Pool, e: Event, u: Token): Option<Status> {
    if Rewrites(p, e, u) then Some(Brought(e).status)
    else if Installs(p, e, u) then e.data.status
    else if Exhausts(p, e, u) then Some(Limited)
    else if Charges(p, e, u) && e.how.outcome.consumed && u in p.accounts && p.accounts[u].status.Limited? then Some(Normal)
    else None
  }

  /** The status last given in the run. */
  ghost function LastStatus(s: System, es: seq<Event>, t: Token): Option<Status> {
    if es == [] then None
    else
      var init := es[..|es| - 1];
      var given := GivenStatus(Run(s, init).pool, es[|es| - 1], Followed(s, init, t));
      if given.Some? then given else LastStatus(s, init, t)
  }

  lemma StatusStep(s: System, e: Event, u: Token)
    requires PoolOk(s.pool) && Enabled(s, e) && u in s.pool.accounts
    requires Successor(s.pool, e, u) in StepPool(s.pool, e).accounts
    ensures var b, given := StepPool(s.pool, e).accounts[Successor(s.pool, e, u)], GivenStatus(s.pool, e, u);
            b.status == if given.Some? then given.value else s.pool.accounts[u].status
  {
    if Rewrites(s.pool, e, u) {
      RewriteStep(s, e, u);
    } else {
      RecordStep(s, e, u);
    }
  }

  /** Over every run the status of an account is the one it was given last: by an update or an import, by a
      token response that carries one, by reported exhaustion, or by a use in spite of that. */
  lemma {:induction false} StatusIsLastGiven(s: System, es: seq<Event>, t: Token)
    requires PoolOk(s.pool) && RunEnabled(s, es) && Stays(s, es, t)
    ensures PoolOk(Run(s, es).pool) && t in s.pool.accounts
    ensures var last := LastStatus(s, es, t);
            RecordAfter(s, es, t).status == if last.Some? then last.value else s.pool.accounts[t].status
  {
    if es != [] {
      var init, e := es[..|es| - 1], es[|es| - 1];
      PrefixStays(s, es, t);
      PrefixEnabled(s, es);
      StatusIsLastGiven(s, init, t);
      StatusStep(Run(s, init), e, Followed(s, init, t));
      StepKeepsPoolOk(Run(s, init), e);
    }
  }

  // ---- Credentials ----

  /** The refresh token that the event gives the account, if it gives one. */
  function GivenCredential(p: Pool, e: Event, u: Token): Option<string> {
    if Rewrites(p, e, u) then Some(Brought(e).refreshToken)
    else if Installs(p, e, u) then e.data.refresh
    else None
  }

  /** The refresh token last given in the run. */
  ghost function LastCredential(s: System, es: seq<Event>, t: Token): Option<string> {
    if es == [] then None
    else
      var init := es[..|es| - 1];
      var given := GivenCredential(Run(s, init).pool, es[|es| - 1], Followed(s, init, t));
      if given.Some? then given else LastCredential(s, init, t)
  }

  lemma CredentialStep(s: System, e: Event, u: Token)
    requires PoolOk(s.pool) && Enabled(s, e) && u in s.pool.accounts
    requires Successor(s.pool, e, u) in StepPool(s.pool, e).accounts
    ensures var b, given := StepPool(s.pool, e).accounts[Successor(s.pool, e, u)], GivenCredential(s.pool, e, u);
            b.refreshToken == if given.Some? then given.value else s.pool.accounts[u].refreshToken
  {
    if Rewrites(s.pool, e, u) {
      RewriteStep(s, e, u);
    } else {
      RecordStep(s, e, u);
    }
  }

  /** Over every run the refresh token of an account is the one it was given last, by an installed response, an
      update or an import. */
  lemma {:induction false} CredentialIsLastGiven(s: System, es: seq<Event>, t: Token)
    requires PoolOk(s.pool) && RunEnabled(s, es) && Stays(s, es, t)
    ensures PoolOk(Run(s, es).pool) && t in s.pool.accounts
    ensures var last := LastCredential(s, es, t);
            RecordAfter(s, es, t).refreshToken == if last.Some? then last.value else s.pool.accounts[t].refreshToken
  {
    if es != [] {
      var init, e := es[..|es| - 1], es[|es| - 1];
      PrefixStays(s, es, t);
      PrefixEnabled(s, es);
      CredentialIsLastGiven(s, init, t);
      CredentialStep(Run(s, init), e, Followed(s, init, t));
      StepKeepsPoolOk(Run(s, init), e);
    }
  }

  // ---- Removal ----

  /** The event takes the account out of the pool. */
  predicate Removes(p: Pool, e: Event, u: Token) {
    || (e.Deleting? && exists name :: name in e.names && name != "" && ResolveIn(p, name) == u)
    || (e.Updating? && ResolveIn(p, e.name) == u && e.account.status.Limited? && e.autoRemove)
    || (Exhausts(p, e, u) && e.how.autoRemove)
  }

  ghost predicate NeverRemoved(s: System, es: seq<Event>, t: Token) {
    es == [] ||
    var init := es[..|es| - 1];
    NeverRemoved(s, init, t) && !Removes(Run(s, init).pool, es[|es| - 1], Followed(s, init, t))
  }

  ghost predicate RemainsUnless(p: Pool, e: Event, u: Token) {
    Successor(p, e, u) in StepPool(p, e).accounts <==> !Removes(p, e, u)
  }

  lemma ApplyingKeeps(p: Pool, e: Event, u: Token)
    requires e.Applying? && u in p.accounts
    ensures RemainsUnless(p, e, u)
  {
    var t := ResolveIn(p, e.name);
    if Rotates(p, e) {
      var n := RotatedTo(p, e);
      RotatedAccounts(p, t, n, Refreshed(p.accounts[t], n, e.data));
      assert StepPool(p, e) == RotatePool(p, t, n, Refreshed(p.accounts[t], n, e.data));
    }
  }

  lemma SettlingAccounts(p: Pool, name: Token, how: Settlement)
    ensures Settle(p, name, how).accounts.Keys == p.accounts.Keys - if how == Exhausted(true) then {ResolveIn(p, name)} else {}
  {
    var t := ResolveIn(p, name);
    match how
    case Plain =>
    case Marked(o) => MarkedAccounts(p, name, o);
    case Exhausted(autoRemove) =>
      if t in p.accounts && !autoRemove {
        assert ReleaseSlot(p, t).accounts == p.accounts;
      }
  }

  lemma MarkedAccounts(p: Pool, name: Token, o: Outcome)
    ensures MarkResult(p, name, o).accounts.Keys == p.accounts.Keys
  {
  }

  lemma SettlingKeepsIff(p: Pool, e: Event, u: Token)
    requires e.Settling? && u in p.accounts
    ensures RemainsUnless(p, e, u)
  {
    SettlingAccounts(p, e.name, e.how);
  }

  lemma DeletingKeepsIff(p: Pool, e: Event, u: Token)
    requires e.Deleting? && u in p.accounts
    ensures RemainsUnless(p, e, u)
  {
  }

  lemma UpdatingKeepsIff(p: Pool, e: Event, u: Token)
    requires e.Updating? && u in p.accounts
    ensures RemainsUnless(p, e, u)
  {
  }

  lemma OthersKeep(s: System, e: Event, u: Token)
    requires Enabled(s, e) && !e.Applying? && !e.Settling? && !e.Updating? && !e.Deleting? && u in s.pool.accounts
    ensures RemainsUnless(s.pool, e, u)
  {
  }

  lemma RemovedIff(s: System, e: Event, u: Token)
    requires Enabled(s, e) && u in s.pool.accounts
    ensures RemainsUnless(s.pool, e, u)
  {
    if e.Applying? {
      ApplyingKeeps(s.pool, e, u);
    } else if e.Settling? {
      SettlingKeepsIff(s.pool, e, u);
    } else if e.Deleting? {
      DeletingKeepsIff(s.pool, e, u);
    } else if e.Updating? {
      UpdatingKeepsIff(s.pool, e, u);
    } else {
      OthersKeep(s, e, u);
    }
  }

  /** Over every run an account leaves the pool exactly by a deletion under a name that stands for it, by an
      update to a limited status, or by reported exhaustion, the last two under automatic removal. */
  lemma {:induction false} StaysIff(s: System, es: seq<Event>, t: Token)
    requires PoolOk(s.pool) && RunEnabled(s, es) && t in s.pool.accounts
    ensures PoolOk(Run(s, es).pool) && (Stays(s, es, t) <==> NeverRemoved(s, es, t))
  {
    if es != [] {
      var init, e := es[..|es| - 1], es[|es| - 1];
      PrefixEnabled(s, es);
      StaysIff(s, init, t);
      StepKeepsPoolOk(Run(s, init), e);
      if NeverRemoved(s, init, t) {
        RemovedIff(Run(s, init), e, Followed(s, init, t));
      }
    }
  }

  // ---- When an account comes back ----

  /** A result that consumed quota makes the account usable again: it was limited, or it has a status of no
      meaning to selection and its known quota is empty, which becomes unknown. */
  predicate ComesBackByUse(a: Account) {
    || a.status.Limited?
    || (a.source != FIREFLY && (a.status.Active? || a.status.Other?) && !a.quotaUnknown && a.quota == 0)
  }

  lemma UseRevivesIff(a: Account, o: Outcome)
    requires !Usable(a)
    ensures Usable(Charged(a, o)) <==> o.consumed && ComesBackByUse(a)
  {
  }

  predicate Revives(p: Pool, e: Event, u: Token) {
    || Rewrites(p, e, u)
    || (Installs(p, e, u) && e.data.status.Some?)
    || (Charges(p, e, u) && e.how.outcome.consumed && u in p.accounts && ComesBackByUse(p.accounts[u]))
  }

  ghost predicate NeverRevives(s: System, es: seq<Event>, t: Token) {
    es == [] ||
    var init := es[..|es| - 1];
    NeverRevives(s, init, t) && !Revives(Run(s, init).pool, es[|es| - 1], Followed(s, init, t))
  }

  lemma UnusableStep(s: System, e: Event, u: Token)
    requires PoolOk(s.pool) && Enabled(s, e) && u in s.pool.accounts && !Usable(s.pool.accounts[u])
    requires Successor(s.pool, e, u) in StepPool(s.pool, e).accounts && !Revives(s.pool, e, u)
    ensures !Usable(StepPool(s.pool, e).accounts[Successor(s.pool, e, u)])
  {
    RecordStep(s, e, u);
    if Charges(s.pool, e, u) {
      UseRevivesIff(s.pool.accounts[u], e.how.outcome);
    }
  }

  /** Over every run an account that is not available for selection stays so, unless an update or an import
      writes its record anew, a token response carries a status, or a result that consumed quota is charged to
      it while it is limited, or while its status says nothing and its quota is known to be empty. */
  lemma {:induction false} UnusableStaysOut(s: System, es: seq<Event>, t: Token)
    requires PoolOk(s.pool) && RunEnabled(s, es) && Stays(s, es, t) && NeverRevives(s, es, t)
    requires t in s.pool.accounts && !Usable(s.pool.accounts[t])
    ensures PoolOk(Run(s, es).pool) && !Usable(RecordAfter(s, es, t))
  {
    if es != [] {
      var init, e := es[..|es| - 1], es[|es| - 1];
      PrefixStays(s, es, t);
      PrefixEnabled(s, es);
      UnusableStaysOut(s, init, t);
      UnusableStep(Run(s, init), e, Followed(s, init, t));
      StepKeepsPoolOk(Run(s, init), e);
    }
  }

  // ---- Results ----

  /** What is counted of a result: a success, a failure that concerns the account, a consumed quota unit. */
  datatype Kind = Successes | Failures | Uses

  predicate IsOf(o: Outcome, k: Kind) {
    match k
    case Successes => o.success
    case Failures => !o.success && o.verify
    case Uses => o.consumed
  }

  /** How many results of a kind the run charges to the account. */
  ghost function Results(s: System, es: seq<Event>, t: Token, k: Kind): nat {
    if es == [] then 0
    else
      var init, e := es[..|es| - 1], es[|es| - 1];
      Results(s, init, t, k) +
      if Charges(Run(s, init).pool, e, Followed(s, init, t)) && IsOf(e.how.outcome, k) then 1 else 0
  }

  ghost predicate NeverRewritten(s: System, es: seq<Event>, t: Token) {
    es == [] ||
    var init := es[..|es| - 1];
    NeverRewritten(s, init, t) && !Rewrites(Run(s, init).pool, es[|es| - 1], Followed(s, init, t))
  }

  lemma CountStep(s: System, e: Event, u: Token)
    requires PoolOk(s.pool) && Enabled(s, e) && u in s.pool.accounts && !Rewrites(s.pool, e, u)
    requires Successor(s.pool, e, u) in StepPool(s.pool, e).accounts
    ensures var a, b := s.pool.accounts[u], StepPool(s.pool, e).accounts[Successor(s.pool, e, u)];
            && b.success == a.success + (if Charges(s.pool, e, u) && IsOf(e.how.outcome, Successes) then 1 else 0)
            && b.fail == a.fail + (if Charges(s.pool, e, u) && IsOf(e.how.outcome, Failures) then 1 else 0)
  {
    RecordStep(s, e, u);
  }

  /** Over every run without updates and imports of the account its successes and failures grow by the results
      that are charged to it, whatever tokens it is renamed to meanwhile. */
  lemma {:induction false} ResultsAreCounted(s: System, es: seq<Event>, t: Token)
    requires PoolOk(s.pool) && RunEnabled(s, es) && Stays(s, es, t) && NeverRewritten(s, es, t)
    ensures PoolOk(Run(s, es).pool) && t in s.pool.accounts
    ensures RecordAfter(s, es, t).success == s.pool.accounts[t].success + Results(s, es, t, Successes)
    ensures RecordAfter(s, es, t).fail == s.pool.accounts[t].fail + Results(s, es, t, Failures)
  {
    if es != [] {
      var init, e := es[..|es| - 1], es[|es| - 1];
      PrefixStays(s, es, t);
      PrefixEnabled(s, es);
      ResultsAreCounted(s, init, t);
      CountStep(Run(s, init), e, Followed(s, init, t));
      StepKeepsPoolOk(Run(s, init), e);
    }
  }

  // ---- Quota ----

  /** Quota `q` after `m` uses: it goes down to zero, and is no longer known once the last unit, or a unit that
      was not there, was used. */
  predicate Spent(q: nat, m: nat, a: Account) {
    a.quota == Max(0, q - m) && (a.quotaUnknown <==> m > 0 && m >= q)
  }

  /** The event neither writes the account anew nor reports it exhausted, and it is not limited. */
  predicate LeavesQuota(p: Pool, e: Event, u: Token) {
    !Rewrites(p, e, u) && !Exhausts(p, e, u) && u in p.accounts && !p.accounts[u].status.Limited?
  }

  ghost predicate Undisturbed(s: System, es: seq<Event>, t: Token) {
    es == [] ||
    var init := es[..|es| - 1];
    Undisturbed(s, init, t) && LeavesQuota(Run(s, init).pool, es[|es| - 1], Followed(s, init, t))
  }

  lemma PrefixUndisturbed(s: System, es: seq<Event>, t: Token)
    requires es != [] && Undisturbed(s, es, t)
    ensures var init := es[..|es| - 1];
            Undisturbed(s, init, t) && LeavesQuota(Run(s, init).pool, es[|es| - 1], Followed(s, init, t))
  {
  }

  lemma SpendOne(q: nat, m: nat, a: Account, o: Outcome)
    requires Spent(q, m, a) && !a.status.Limited?
    ensures Spent(q, if o.consumed then m + 1 else m, Charged(a, o))
  {
  }

  lemma QuotaStep(s: System, e: Event, u: Token, q: nat, m: nat)
    requires PoolOk(s.pool) && Enabled(s, e) && LeavesQuota(s.pool, e, u) && Spent(q, m, s.pool.accounts[u])
    requires Successor(s.pool, e, u) in StepPool(s.pool, e).accounts
    ensures Spent(q, m + if Charges(s.pool, e, u) && IsOf(e.how.outcome, Uses) then 1 else 0,
                  StepPool(s.pool, e).accounts[Successor(s.pool, e, u)])
  {
    RecordStep(s, e, u);
    if Charges(s.pool, e, u) {
      SpendOne(q, m, s.pool.accounts[u], e.how.outcome);
    }
  }

  lemma LastUse(b: System, e: Event, u: Token, q: nat, m: nat, n: nat)
    requires PoolOk(b.pool) && Enabled(b, e) && LeavesQuota(b.pool, e, u) && Spent(q, m, b.pool.accounts[u])
    requires Successor(b.pool, e, u) in StepPool(b.pool, e).accounts
    requires n == m + if Charges(b.pool, e, u) && IsOf(e.how.outcome, Uses) then 1 else 0
    ensures PoolOk(Step(b, e).pool) && Spent(q, n, Step(b, e).pool.accounts[Successor(b.pool, e, u)])
  {
    QuotaStep(b, e, u, q, m);
    StepKeepsPoolOk(b, e);
  }

  lemma ResultsNext(s: System, es: seq<Event>, t: Token, k: Kind)
    requires es != []
    ensures var init, e := es[..|es| - 1], es[|es| - 1];
            Results(s, es, t, k) ==
            Results(s, init, t, k) + if Charges(Run(s, init).pool, e, Followed(s, init, t)) && IsOf(e.how.outcome, k) then 1 else 0
  {
  }

  /** Over every run that leaves the account to its results a known quota goes down by one with each use, never
      below zero, and becomes unknown with the use that empties it. */
  lemma {:induction false} QuotaIsSpent(s: System, es: seq<Event>, t: Token)
    requires PoolOk(s.pool) && RunEnabled(s, es) && Stays(s, es, t) && Undisturbed(s, es, t)
    requires t in s.pool.accounts && !s.pool.accounts[t].quotaUnknown
    ensures PoolOk(Run(s, es).pool) && Spent(s.pool.accounts[t].quota, Results(s, es, t, Uses), RecordAfter(s, es, t))
  {
    if es != [] {
      var init, e := es[..|es| - 1], es[|es| - 1];
      PrefixStays(s, es, t);
      PrefixEnabled(s, es);
      PrefixUndisturbed(s, es, t);
      QuotaIsSpent(s, init, t);
      ResultsNext(s, es, t, Uses);
      LastUse(Run(s, init), e, Followed(s, init, t), s.pool.accounts[t].quota, Results(s, init, t, Uses), Results(s, es, t, Uses));
    }
  }
}
