/** The account service as an object: its methods are the lock-protected regions, updating the
    fields in place. Each one performs exactly the step of the pool that is named in its contract. */
module AccountService {
  import opened Sequences
  import opened AliasGraph
  import opened AccountPool
  import opened SlotConservation

  /** The pending tokens with one of them renamed; a token that is there twice then is kept once. */
  method RenamePending(pending: seq<Token>, oldToken: Token, newToken: Token) returns (renamed: seq<Token>)
    ensures renamed == RenamedSeq(pending, oldToken, newToken)
  {
    ghost var all := Replaced(pending, oldToken, newToken);
    renamed := [];
    for i := 0 to |pending|
      invariant renamed == Distinct(all[..i])
    {
      var token := if pending[i] == oldToken then newToken else pending[i];
      assert all[..i + 1][..i] == all[..i] && all[..i + 1][i] == token;
      if token !in renamed {
        renamed := renamed + [token];
      }
    }
    assert all[..|pending|] == all;
  }

  lemma RotateQueueFrames(p: Pool, oldToken: Token, newToken: Token, aliases: map<Token, Token>, inflight: map<Token, nat>)
    ensures RotateQueue(p.(aliases := aliases, inflight := inflight), oldToken, newToken) ==
            RotateQueue(p, oldToken, newToken).(aliases := aliases, inflight := inflight)
  {
  }

  /** The loop over the account map in its order. */
  method SelectReady(p: Pool, f: Filters, excluded: set<Token>) returns (tokens: seq<Token>)
    ensures tokens == ReadyTokens(p, f, excluded)
  {
    tokens := [];
    for i := 0 to |p.order|
      invariant tokens == Filter(p.order[..i], ReadyTest(p, f, excluded))
    {
      FilterStep(p.order, i, ReadyTest(p, f, excluded));
      var t := p.order[i];
      if t in p.accounts && t !in excluded && IsAvailable(p.accounts[t]) && Matches(p.accounts[t], f) {
        tokens := tokens + [t];
      }
    }
    assert p.order[..|p.order|] == p.order;
  }

  class Service {
    const limit: nat
    var accounts: map<Token, Account>
    var order: seq<Token>
    var aliases: map<Token, Token>
    var inflight: map<Token, nat>
    var index: nat
    var pending: seq<Token>
    var pendingSet: set<Token>
    var active: set<Token>
    var rerun: set<Token>
    var startedAt: map<Token, int>
    /** The slots that callers hold; in the program these are local variables of the callers. */
    var leases: seq<Lease>

    function PoolNow(): Pool
      reads this
    {
      Pool(limit, accounts, order, aliases, inflight, index, pending, pendingSet, active, rerun, startedAt)
    }

    function State(): System
      reads this
    {
      System(PoolNow(), leases)
    }

    /** A service that has loaded its accounts from storage. */
    constructor (limit: nat, accounts: map<Token, Account>, order: seq<Token>)
      requires limit >= 1 && "" !in accounts && NoDuplicates(order) && Elements(order) == accounts.Keys
      requires forall t :: t in accounts ==> accounts[t].accessToken == t
      ensures Initial(State()) && this.accounts == accounts && this.order == order && this.limit == limit
    {
      this.limit, this.accounts, this.order := limit, accounts, order;
      aliases, inflight, index := map[], map[], 0;
      pending, pendingSet, active, rerun, startedAt := [], {}, {}, {}, map[];
      leases := [];
    }

    /** The resolver: follows the aliases and remembers the tokens it has seen. */
    method ResolveLocked(accessToken: Token) returns (token: Token)
      ensures token == ResolveIn(PoolNow(), accessToken)
    {
      token := accessToken;
      var seen: set<Token> := {};
      while token != "" && token !in accounts && token in aliases && token !in seen
        invariant ResolveFrom(Aliases(PoolNow()), token, seen) == ResolveIn(PoolNow(), accessToken)
        decreases aliases.Keys - seen
      {
        seen, token := seen + {token}, aliases[token];
      }
    }

    // ---- Selection ----

    method ListReady(f: Filters, excluded: set<Token>) returns (tokens: seq<Token>)
      ensures tokens == ReadyTokens(PoolNow(), f, excluded)
    {
      tokens := SelectReady(PoolNow(), f, excluded);
    }

    method ListAvailable(f: Filters, excluded: set<Token>) returns (tokens: seq<Token>)
      ensures tokens == AvailableTokens(PoolNow(), f, excluded)
    {
      var ready := ListReady(f, excluded);
      tokens := [];
      var i := 0;
      ghost var free := FreeTest(PoolNow());
      while i < |ready|
        invariant i <= |ready|
        invariant tokens == Filter(ready[..i], free)
      {
        FilterStep(ready, i, free);
        if (if ready[i] in inflight then inflight[ready[i]] else 0) < limit {
          tokens := tokens + [ready[i]];
        }
        i := i + 1;
      }
      assert ready[..i] == ready;
    }

    method NoReadyCandidateError(f: Filters, excluded: set<Token>) returns (error: SelectionError)
      ensures error == NoReadyError(PoolNow(), f, excluded)
    {
      var matched, limited, i := 0, 0, 0;
      ghost var admitted, isLimited := MatchTest(PoolNow(), f, excluded), LimitedTest(PoolNow());
      ghost var found: seq<Token> := [];
      while i < |order|
        invariant i <= |order|
        invariant found == Filter(order[..i], admitted) && matched == |found|
        invariant limited == |Filter(found, isLimited)|
      {
        FilterStep(order, i, admitted);
        if order[i] in accounts && order[i] !in excluded && Matches(accounts[order[i]], f) {
          FilterConcat(found, [order[i]], isLimited);
          found, matched := found + [order[i]], matched + 1;
          if accounts[order[i]].status.Limited? {
            limited := limited + 1;
          }
        }
        i := i + 1;
      }
      assert order[..i] == order;
      error := if matched > 0 && limited == matched then QuotaExhausted else Unavailable;
    }

    /** One pass of the acquisition loop under the slot condition. */
    method AcquireOnce(owner: nat, f: Filters, excluded: set<Token>) returns (r: Acquired)
      modifies this
      ensures r == AcquireResult(old(PoolNow()), f, excluded)
      ensures State() == Step(old(State()), Acquiring(owner, f, excluded))
    {
      var ready := ListReady(f, excluded);
      if ready == [] {
        var error := NoReadyCandidateError(f, excluded);
        return NoReady(error);
      }
      var tokens := ListAvailable(f, excluded);
      if tokens == [] {
        return AllBusy;
      }
      var token := tokens[index % |tokens|];
      index := index + 1;
      inflight := inflight[token := (if token in inflight then inflight[token] else 0) + 1];
      leases := leases + [NewLease(owner, token)];
      r := Got(token);
    }

    /** The holder of a slot learns another name for it; in the program the name is a local variable. */
    method NameSlot(id: nat, name: Token)
      requires id < |leases|
      modifies this`leases
      ensures State() == Step(old(State()), Naming(id, name))
    {
      leases := leases[id := leases[id].(names := leases[id].names + {name})];
    }

    // ---- Settling a slot ----

    method ReleaseLocked(accessToken: Token)
      modifies this`inflight
      ensures PoolNow() == ReleaseSlot(old(PoolNow()), accessToken)
    {
      var token := ResolveLocked(accessToken);
      var current := if token in inflight then inflight[token] else 0;
      if current <= 1 {
        inflight := inflight - {token};
      } else {
        inflight := inflight[token := current - 1];
      }
    }

    method ReleaseImageSlot(id: nat, name: Token)
      requires id < |leases|
      modifies this`inflight, this`leases
      ensures State() == Step(old(State()), Settling(id, name, Plain))
    {
      ReleaseLocked(name);
      leases := leases[id := leases[id].(held := false)];
    }

    /** What a result does to the record of its account. */
    method ChargeLocked(token: Token, outcome: Outcome)
      requires token in accounts
      modifies this`accounts
      ensures accounts == old(accounts)[token := Charged(old(accounts)[token], outcome)]
    {
      var a := accounts[token];
      if outcome.success {
        a := a.(success := a.success + 1);
      }
      if outcome.consumed {
        if !a.quotaUnknown {
          var quota := a.quota;
          a := a.(quota := if quota > 0 then quota - 1 else 0);
          if quota <= 1 {
            a := a.(quotaUnknown := true);
          }
        }
        if a.status.Limited? {
          a := a.(status := Normal, quotaUnknown := true);
        }
      }
      if !outcome.success && outcome.verify {
        a := a.(fail := a.fail + 1);
      }
      accounts := accounts[token := a];
    }

    method MarkImageResult(id: nat, name: Token, outcome: Outcome)
      requires id < |leases|
      modifies this
      ensures State() == Step(old(State()), Settling(id, name, Marked(outcome)))
    {
      var token := ResolveLocked(name);
      ReleaseLocked(token);
      leases := leases[id := leases[id].(held := false)];
      if token in accounts {
        if outcome.expected.Some? {
          var expected := ResolveLocked(outcome.expected.value);
          assert ResolveIn(PoolNow(), outcome.expected.value) == ResolveIn(old(PoolNow()), outcome.expected.value);
          if expected != token {
            return;
          }
        }
        ChargeLocked(token, outcome);
      }
    }

    method ReportExhaustedAccount(id: nat, name: Token, autoRemove: bool)
      requires id < |leases|
      modifies this
      ensures State() == Step(old(State()), Settling(id, name, Exhausted(autoRemove)))
    {
      var token := ResolveLocked(name);
      ReleaseLocked(token);
      leases := leases[id := leases[id].(held := false)];
      if token in accounts {
        if autoRemove {
          RemoveLocked({token});
        } else {
          accounts := accounts[token := accounts[token].(status := Limited, quota := 0, quotaUnknown := false)];
        }
      }
    }

    // ---- Updates and deletion ----

    method OrderWithout(gone: set<Token>) returns (kept: seq<Token>)
      ensures kept == Filter(order, Outside(gone))
    {
      kept := [];
      for i := 0 to |order|
        invariant kept == Filter(order[..i], Outside(gone))
      {
        FilterStep(order, i, Outside(gone));
        if order[i] !in gone {
          kept := kept + [order[i]];
        }
      }
      assert order[..|order|] == order;
    }

    /** Drops resolved tokens with their counters and aliases. */
    method RemoveLocked(gone: set<Token>)
      modifies this
      ensures State() == System(RemoveAll(old(PoolNow()), gone), old(leases))
    {
      var removed := gone * accounts.Keys;
      accounts := accounts - gone;
      order := OrderWithout(gone);
      inflight := inflight - gone;
      aliases := map t | t in aliases && t !in gone && aliases[t] !in gone :: aliases[t];
      if removed != {} {
        index := if accounts == map[] then 0 else index % |accounts|;
      }
    }

    method UpdateAccountFields(name: Token, a: Account, autoRemove: bool)
      modifies this
      ensures State() == Step(old(State()), Updating(name, a, autoRemove))
    {
      var token := ResolveLocked(name);
      if token !in accounts {
        return;
      }
      if a.status.Limited? && autoRemove {
        RemoveLocked({token});
      } else {
        accounts := accounts[token := a.(accessToken := token)];
      }
    }

    method DeleteAccounts(names: set<Token>)
      modifies this
      ensures State() == Step(old(State()), Deleting(names))
    {
      var targets: set<Token> := {};
      var todo := names;
      while todo != {}
        invariant todo <= names && State() == old(State())
        invariant targets == set t | t in names - todo && t != "" :: ResolveIn(PoolNow(), t)
        decreases todo
      {
        var t :| t in todo;
        if t != "" {
          var r := ResolveLocked(t);
          targets := targets + {r};
        }
        todo := todo - {t};
      }
      assert targets == DeleteTargets(PoolNow(), names);
      RemoveLocked(targets);
    }

    // ---- Import and rotation ----

    method PutLocked(token: Token, a: Account)
      modifies this`accounts, this`order
      ensures PoolNow() == PutAccount(old(PoolNow()), token, a)
    {
      if token !in accounts {
        order := order + [token];
      }
      accounts := accounts[token := a];
    }

    method PopLocked(token: Token)
      modifies this`accounts, this`order
      ensures PoolNow() == PopAccount(old(PoolNow()), token)
    {
      accounts := accounts - {token};
      order := OrderWithout({token});
    }

    method ImportAccount(token: Token, a: Account)
      modifies this
      ensures State() == Step(old(State()), Importing(token, a))
    {
      PutLocked(token, a.(accessToken := token));
    }

    method ReimportFirefly(existing: Token, token: Token, a: Account)
      modifies this
      ensures State() == Step(old(State()), Reimporting(existing, token, a))
    {
      PopLocked(existing);
      aliases := aliases[existing := token];
      PutLocked(token, a.(accessToken := token));
    }

    /** Renames the retired token in the queue of account checks. */
    method RotateQueueLocked(oldToken: Token, newToken: Token)
      modifies this`pending, this`pendingSet, this`active, this`rerun, this`startedAt
      ensures PoolNow() == RotateQueue(old(PoolNow()), oldToken, newToken)
    {
      if oldToken in pendingSet || oldToken in pending {
        pending := RenamePending(pending, oldToken, newToken);
        pendingSet := Elements(pending);
      }
      if oldToken in active {
        active := active - {oldToken} + {newToken};
      }
      if oldToken in rerun {
        rerun := rerun - {oldToken} + {newToken};
      }
      if oldToken in startedAt {
        var started := startedAt[oldToken];
        startedAt := (startedAt - {oldToken})[newToken := started];
      }
    }

    /** Moves the in-flight counter of the retired token to its replacement. */
    method RotateCounterLocked(oldToken: Token, newToken: Token)
      modifies this`inflight
      ensures inflight == RotateCounter(old(PoolNow()), oldToken, newToken)
    {
      var moved := if oldToken in inflight then inflight[oldToken] else 0;
      inflight := inflight - {oldToken};
      if moved != 0 {
        inflight := inflight[newToken := (if newToken in inflight then inflight[newToken] else 0) + moved];
      }
    }

    /** Everything that is renamed besides the account itself. */
    method RenameLocked(oldToken: Token, newToken: Token)
      modifies this`aliases, this`inflight, this`pending, this`pendingSet, this`active, this`rerun, this`startedAt
      ensures PoolNow() ==
              RotateQueue(old(PoolNow()), oldToken, newToken).(
                aliases := old(aliases)[oldToken := newToken], inflight := RotateCounter(old(PoolNow()), oldToken, newToken))
    {
      aliases := aliases[oldToken := newToken];
      RotateCounterLocked(oldToken, newToken);
      ghost var p := old(PoolNow());
      RotateQueueFrames(p, oldToken, newToken, aliases, inflight);
      RotateQueueLocked(oldToken, newToken);
    }

    method RotateLocked(oldToken: Token, newToken: Token, next: Account)
      modifies this
      ensures PoolNow() == RotatePool(old(PoolNow()), oldToken, newToken, next) && leases == old(leases)
    {
      PopLocked(oldToken);
      RenameLocked(oldToken, newToken);
      PutLocked(newToken, next);
    }

    /** Installs a token response: the only region that renames a live token. */
    method ApplyRefreshedTokens(name: Token, data: TokenData, expected: Expected) returns (r: Applied)
      modifies this
      ensures r == ApplyResult(old(PoolNow()), name, data, expected)
      ensures State() == Step(old(State()), Applying(name, data, expected))
    {
      var oldToken := ResolveLocked(name);
      if oldToken !in accounts {
        return if expected.Exactly? then CredentialsChanged else NoAccount(oldToken);
      }
      var current := accounts[oldToken];
      if expected.Exactly? && (oldToken != expected.access || current.refreshToken != expected.refresh) {
        return CredentialsChanged;
      }
      var newToken := if data.access == "" then oldToken else data.access;
      if newToken != oldToken && newToken in accounts {
        return CredentialsChanged;
      }
      var next := current.(accessToken := newToken);
      if data.refresh.Some? {
        next := next.(refreshToken := data.refresh.value);
      }
      if data.status.Some? {
        next := next.(status := data.status.value);
      }
      if newToken != oldToken {
        RotateLocked(oldToken, newToken, next);
      } else {
        PutLocked(newToken, next);
      }
      r := Installed(newToken);
    }

    // ---- The queue of account checks ----

    method ScheduleCheck(name: Token, force: bool, now: int) returns (pick: Token)
      modifies this
      ensures Enabled(old(State()), Scheduling(name, force, now, pick))
      ensures State() == Step(old(State()), Scheduling(name, force, now, pick))
    {
      var token := ResolveLocked(name);
      var standing := ActiveFor(PoolNow(), token);
      pick := "";
      if standing != {} {
        pick :| pick in standing;
      }
      ScheduleLocked(name, token, standing, force, now, pick);
    }

    method ScheduleLocked(name: Token, token: Token, standing: set<Token>, force: bool, now: int, pick: Token)
      requires token == ResolveIn(PoolNow(), name) && standing == ActiveFor(PoolNow(), token)
      modifies this
      ensures State() == Step(old(State()), Scheduling(name, force, now, pick))
    {
      if name == "" {
        return;
      }
      startedAt := Remembered(PoolNow(), now);
      if token in pendingSet || standing != {} {
        if force && standing != {} {
          rerun := rerun + {pick};
        }
        return;
      }
      if !force && StartedRecently(PoolNow(), token, now) {
        return;
      }
      pending, pendingSet := pending + [token], pendingSet + {token};
    }

    /** One pass of the loop that hands pending checks to workers. */
    method StartOne(now: int) returns (started: Option<Token>)
      modifies this
      ensures State() == Step(old(State()), Starting(now))
      ensures started.Some? <==> old(pending) != [] && |old(active)| < MAX_CHECKS
      ensures started.Some? ==> started.value == old(pending)[0] && started.value in active
    {
      if pending == [] || |active| >= MAX_CHECKS {
        return None;
      }
      var token := pending[0];
      pending, pendingSet := pending[1..], pendingSet - {token};
      active := active + {token};
      startedAt := startedAt[token := now];
      started := Some(token);
    }

    /** The `finally` region of the worker that was started for `token`. */
    method FinishCheck(token: Token)
      modifies this
      ensures State() == Step(old(State()), Finishing(token))
    {
      var resolved := ResolveLocked(token);
      active := active - {token};
      var again := token in rerun;
      rerun := rerun - {token};
      if again && resolved != "" && resolved !in pendingSet {
        pending, pendingSet := pending + [resolved], pendingSet + {resolved};
      }
    }

    /** One region, performed by whoever holds the lock next. */
    method Perform(e: Event)
      requires e.Settling? || e.Naming? ==> e.lease < |leases|
      requires e.Scheduling? ==> Enabled(State(), e)
      modifies this
      ensures State() == Step(old(State()), e)
    {
      match e
      case Acquiring(owner, f, excluded) => var _ := AcquireOnce(owner, f, excluded);
      case Naming(id, name) => NameSlot(id, name);
      case Settling(id, name, how) =>
        match how {
          case Plain => ReleaseImageSlot(id, name);
          case Marked(outcome) => MarkImageResult(id, name, outcome);
          case Exhausted(autoRemove) => ReportExhaustedAccount(id, name, autoRemove);
        }
      case Updating(name, a, autoRemove) => UpdateAccountFields(name, a, autoRemove);
      case Deleting(names) => DeleteAccounts(names);
      case Importing(token, a) => ImportAccount(token, a);
      case Reimporting(existing, token, a) => ReimportFirefly(existing, token, a);
      case Applying(name, data, expected) => var _ := ApplyRefreshedTokens(name, data, expected);
      case Scheduling(name, force, now, pick) =>
        var token := ResolveLocked(name);
        ScheduleLocked(name, token, ActiveFor(PoolNow(), token), force, now, pick);
      case Starting(now) => var _ := StartOne(now);
      case Finishing(token) => FinishCheck(token);
    }

    /** Any number of regions of other callers. */
    method PerformAll(es: seq<Event>)
      requires RunEnabled(State(), es)
      modifies this
      ensures State() == Run(old(State()), es)
    {
      ghost var s := State();
      for i := 0 to |es|
        invariant State() == Run(s, es[..i])
      {
        assert Enabled(Run(s, es[..i]), es[i]);
        assert es[..i + 1][..i] == es[..i];
        Perform(es[i]);
      }
      assert es[..|es|] == es;
    }
  }
}
