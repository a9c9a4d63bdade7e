/** The selection as it runs: every method performs one function of the remote check or of the selection on
    the fields of the service, and what is proved about those functions holds for it. */
module SelectionService {
  import opened Sequences
  import opened AliasGraph
  import opened AccountPool
  import opened SlotConservation
  import opened AccountService
  import opened CallerView
  import opened ImageCheck
  import opened ImageSelection

  // ---- The other callers ----

  /** The turn of the other callers. */
  method Interfere(svc: Service, w: World, k: nat, id: nat)
    requires SlotInv(svc.State()) && Fair(w)
    modifies svc
    ensures svc.State() == Interfered(w, k, old(svc.State()), id)
    ensures SlotInv(svc.State())
  {
    InterferedKeeps(w, k, svc.State(), id);
    svc.PerformAll(w.others(k, svc.State(), id));
  }

  // ---- The check of one account ----

  /** `_record_invalid_token_seen`: marks the account that the token resolves to, if there is one. */
  method MarkInvalid(svc: Service, name: Token)
    modifies svc
    ensures svc.State() == WithMark(old(svc.State()), name)
  {
    var token := svc.ResolveLocked(name);
    if token in svc.accounts {
      svc.UpdateAccountFields(name, Rejected(svc.accounts[token]), false);
    }
  }

  /** `handle_invalid_token` for a name of the lease. Without automatic removal it marks the account and
      changes nothing else; with it the account of the lease is gone afterwards. */
  method HandleInvalidToken(svc: Service, w: World, k: nat, id: nat, name: Token)
    requires SlotInv(svc.State()) && Fair(w) && HasName(svc.State(), w.me, id, name)
    modifies svc
    ensures svc.State() == Handled(w, k, old(svc.State()), id, name)
    ensures Kept(old(svc.State()), svc.State(), w.me)
    ensures if w.removeInvalid then !Live(svc.State(), id) else svc.State() == WithMark(old(svc.State()), name)
  {
    ghost var a := svc.State();
    HandledKeeps(w, k, a, id, name);
    MarkedKeeps(a, name, w.me, id);
    MarkInvalid(svc, name);
    if w.removeInvalid {
      RemoveInvalid(svc, w, k, id, name, a);
    }
  }

  /** The deletion of a marked account; one that finds no account is followed by another mark. */
  method RemoveInvalid(svc: Service, w: World, k: nat, id: nat, name: Token, ghost a: System)
    requires SlotInv(a) && SlotInv(svc.State()) && Fair(w) && svc.State() == WithMark(a, name) && w.removeInvalid
    modifies svc
    ensures svc.State() == Handled(w, k, a, id, name)
  {
    Interfere(svc, w, k, id);
    var token := svc.ResolveLocked(name);
    var removed := token in svc.accounts;
    DeleteKeepsSlots(svc.State(), {name});
    svc.DeleteAccounts({name});
    if !removed {
      Interfere(svc, w, k, id);
      MarkInvalid(svc, name);
    }
  }

  /** One attempt of a refresh. */
  method RefreshAttempt(svc: Service, w: World, k: nat, id: nat, name: Token, force: bool) returns (r: Attempted)
    requires SlotInv(svc.State()) && Fair(w) && HasName(svc.State(), w.me, id, name)
    modifies svc
    ensures (svc.State(), r) == Attempt(w, k, old(svc.State()), id, name, force)
    ensures Kept(old(svc.State()), svc.State(), w.me)
  {
    ghost var a := svc.State();
    AttemptLeaves(w, k, a, id, name, force);
    var token := svc.ResolveLocked(name);
    ResolvedIsAgreed(a, w.me, id, name);
    NamedKeeps(a, w.me, id, token);
    svc.NameSlot(id, token);
    if token !in svc.accounts {
      return Returned(Some(name), false);
    }
    var pair := Exactly(token, svc.accounts[token].refreshToken);
    if pair.refresh == "" || !(force || w.due(k)) {
      return Returned(Some(token), false);
    }
    Interfere(svc, w, k, id);
    AskedKeeps(w, k, a, id, name);
    r := ConcludeAttempt(svc, w, k, id, pair);
  }

  /** What the answer to a refresh leads to. */
  method ConcludeAttempt(svc: Service, w: World, k: nat, id: nat, pair: Expected) returns (r: Attempted)
    requires SlotInv(svc.State()) && Fair(w) && pair.Exactly? && HasName(svc.State(), w.me, id, pair.access)
    modifies svc
    ensures (svc.State(), r) == Concluded(w, k, old(svc.State()), id, pair)
  {
    match w.refresh(k, svc.State()) {
      case Answer(data) =>
        var applied := svc.ApplyRefreshedTokens(pair.access, data, pair);
        if applied.Installed? {
          svc.NameSlot(id, applied.token);
        }
        r := if applied.Installed? then Returned(Some(applied.token), false) else Again;
      case Raised => r := Returned(None, false);
      case Dead =>
        HandleInvalidToken(svc, w, k, id, pair.access);
        r := Returned(Some(pair.access), true);
    }
  }

  /** `refresh_access_token`. None is a raised error; `died` is reported exactly when a request of the refresh
      is answered by the end of the credential. */
  method RefreshAccessToken(svc: Service, w: World, k: nat, id: nat, name: Token, force: bool)
    returns (result: Option<Token>, died: bool)
    requires SlotInv(svc.State()) && Fair(w) && HasName(svc.State(), w.me, id, name)
    modifies svc
    ensures Refresh(svc.State(), result, died) == Refreshing(w, k, old(svc.State()), id, name, force)
    ensures Leaves(w, old(svc.State()), svc.State(), id, result, died)
    ensures died <==> Dies(w, k, old(svc.State()), id, name, force)
  {
    RefreshingLeaves(w, k, svc.State(), id, name, force);
    RefreshingDiesIff(w, k, svc.State(), id, name, force);
    result, died := RefreshInTwo(svc, w, k, id, name, force);
  }

  /** The loop of the two attempts. */
  method RefreshInTwo(svc: Service, w: World, k: nat, id: nat, name: Token, force: bool)
    returns (result: Option<Token>, died: bool)
    requires SlotInv(svc.State()) && Fair(w) && HasName(svc.State(), w.me, id, name)
    modifies svc
    ensures Refresh(svc.State(), result, died) == Refreshing(w, k, old(svc.State()), id, name, force)
  {
    ghost var all := Refreshing(w, k, svc.State(), id, name, force);
    var t := Turns(k, 2);
    while t.left > 0
      invariant SlotInv(svc.State()) && HasName(svc.State(), w.me, id, name)
      invariant all == RefreshingFrom(w, t, svc.State(), id, name, force)
      decreases t.left
    {
      ghost var a := svc.State();
      var r := RefreshAttempt(svc, w, t.next, id, name, force);
      RefreshingOn(w, t, a, id, name, force, svc.State(), r);
      if r.Returned? {
        return r.result, r.died;
      }
      StillNamed(a, svc.State(), w.me, id, name);
      t := Onwards(t);
    }
    var token := svc.ResolveLocked(name);
    svc.NameSlot(id, token);
    result, died := Some(token), false;
  }

  /** The remote part of a check. */
  method ProbeRemote(svc: Service, w: World, k: nat, id: nat, name: Token) returns (r: Probed, asked: nat)
    requires SlotInv(svc.State()) && Fair(w) && HasName(svc.State(), w.me, id, name)
    modifies svc
    ensures (svc.State(), r, asked) == Probing(w, k, old(svc.State()), id, name)
    ensures ProbedSo(w, k, old(svc.State()), svc.State(), id, r, asked)
  {
    ProbingLeaves(w, k, svc.State(), id, name);
    var active, died := RefreshFirst(svc, w, k, id, name);
    match w.info(k) {
      case Fields(account) => r, asked := Probe(active, account, died), k;
      case Failed => r, asked := ProbeFailed, k;
      case InvalidToken => r, asked := ProbeAgain(svc, w, k, id, active, died);
    }
  }

  /** The opportunistic refresh, and what others do until the first query. */
  method RefreshFirst(svc: Service, w: World, k: nat, id: nat, name: Token) returns (active: Token, died: bool)
    requires SlotInv(svc.State()) && Fair(w) && HasName(svc.State(), w.me, id, name)
    modifies svc
    ensures SlotInv(svc.State()) && HasName(svc.State(), w.me, id, active)
    ensures svc.State() == QueriedIn(w, k, old(svc.State()), id, name)
    ensures var pre := Refreshing(w, k, old(svc.State()), id, name, false); active == ActiveName(pre, name) && died == pre.died
  {
    NameAfterRefresh(w, k, svc.State(), id, name);
    var preflight;
    preflight, died := RefreshAccessToken(svc, w, k, id, name, false);
    active := if preflight.Some? then preflight.value else name;
    QueriedAfter(w, k, old(svc.State()), id, name, svc.State());
    Interfere(svc, w, SecondTurn(k), id);
  }

  /** The forced refresh after a rejected token, and the second query. */
  method ProbeAgain(svc: Service, w: World, k: nat, id: nat, active: Token, died: bool) returns (r: Probed, asked: nat)
    requires SlotInv(svc.State()) && Fair(w) && HasName(svc.State(), w.me, id, active)
    modifies svc
    ensures (svc.State(), r, asked) == ProbingAgain(w, k, old(svc.State()), id, active, died)
  {
    ghost var a := svc.State();
    var forced, diedToo := RefreshAccessToken(svc, w, k + 3, id, active, true);
    if forced.Some? && forced.value != "" && forced.value != active {
      r, asked := QuerySecond(svc, w, k, id, forced.value, died || diedToo);
    } else {
      StillNamed(a, svc.State(), w.me, id, active);
      HandleInvalidToken(svc, w, k + 6, id, active);
      r, asked := ProbeFailed, k;
    }
  }

  /** The second query, under the token of the forced refresh. */
  method QuerySecond(svc: Service, w: World, k: nat, id: nat, name: Token, died: bool) returns (r: Probed, asked: nat)
    requires SlotInv(svc.State()) && Fair(w) && HasName(svc.State(), w.me, id, name)
    modifies svc
    ensures (svc.State(), r, asked) == SecondQuery(w, k, old(svc.State()), id, name, died)
  {
    ghost var a := svc.State();
    InterferedKeeps(w, k + 5, a, id);
    Interfere(svc, w, k + 5, id);
    StillNamed(a, svc.State(), w.me, id, name);
    r, asked := ProbeFailed, k + 1;
    match w.info(k + 1) {
      case Fields(account) => r := Probe(name, account, died);
      case InvalidToken => HandleInvalidToken(svc, w, k + 6, id, name);
      case Failed =>
    }
  }

  /** `fetch_remote_info`: the remote part of the check, and the recording of its answer. A report says that
      the credential was found dead exactly when a refresh of the check was answered so. */
  method FetchRemoteInfo(svc: Service, w: World, k: nat, id: nat, name: Token) returns (r: Checked, asked: nat)
    requires SlotInv(svc.State()) && Fair(w) && HasName(svc.State(), w.me, id, name)
    modifies svc
    ensures (svc.State(), r, asked) == Fetching(w, k, old(svc.State()), id, name)
    ensures Decides(w, k, asked) && Reported(old(svc.State()), svc.State(), w, id, r, w.info(asked))
    ensures r.Info? ==> (r.died <==> FindsDead(w, k, old(svc.State()), id, name))
  {
    ghost var a := svc.State();
    FetchingReports(w, k, a, id, name);
    FetchingDiesIff(w, k, a, id, name);
    var probed;
    probed, asked := ProbeRemote(svc, w, k, id, name);
    r := RecordProbe(svc, w, k, id, probed);
  }

  /** The end of a check, after its remote part. */
  method RecordProbe(svc: Service, w: World, k: nat, id: nat, probed: Probed) returns (r: Checked)
    requires SlotInv(svc.State()) && Fair(w) && (probed.Probe? ==> Holds(svc.State(), w.me, id))
    modifies svc
    ensures (svc.State(), r) == Fetched(w, k, old(svc.State()), id, probed)
  {
    if probed.ProbeFailed? {
      return CheckFailed;
    }
    InterferedKeeps(w, k + 7, svc.State(), id);
    Interfere(svc, w, k + 7, id);
    var account := RecordAnswer(svc, w, id, probed.active, probed.account);
    r := Info(account, probed.died);
  }

  /** `_record_refresh_success` and `update_account` with an answer, and the record that comes back. */
  method RecordAnswer(svc: Service, w: World, id: nat, active: Token, answer: Account) returns (account: Account)
    requires id < |svc.leases|
    modifies svc
    ensures (svc.State(), account) == Recording(w, old(svc.State()), id, active, answer)
  {
    var token := svc.ResolveLocked(active);
    svc.NameSlot(id, token);
    var kept := token in svc.accounts && !(answer.status.Limited? && w.removeLimited);
    svc.UpdateAccountFields(active, answer, w.removeLimited);
    account := answer.(accessToken := if kept then token else active);
  }

  // ---- The loop ----

  /** Waiting for a slot. It ends with a slot on a new candidate, or because no account is ready, or it is
      still waiting because every ready account is at its limit. */
  method AcquireSlot(svc: Service, w: World, k: nat, f: Filters, excluded: set<Token>, passes: nat) returns (r: Acquired)
    requires SlotInv(svc.State()) && Fair(w)
    modifies svc
    ensures Wait(svc.State(), r) == Waiting(w, k, old(svc.State()), f, excluded, passes)
    ensures passes > 0 ==> WaitedSo(old(svc.State()), svc.State(), w.me, f, excluded, r)
    ensures passes == 0 ==> r.AllBusy?
    ensures SlotInv(svc.State())
  {
    WaitingGains(w, k, svc.State(), f, excluded, passes);
    if passes > 0 {
      WaitingIsWaited(w, k, svc.State(), f, excluded, passes);
    }
    r := RepeatPasses(svc, w, k, f, excluded, passes);
  }

  /** The loop of the passes. */
  method RepeatPasses(svc: Service, w: World, k: nat, f: Filters, excluded: set<Token>, passes: nat) returns (r: Acquired)
    requires SlotInv(svc.State()) && Fair(w)
    modifies svc
    ensures Wait(svc.State(), r) == Waiting(w, k, old(svc.State()), f, excluded, passes)
    ensures SlotInv(svc.State())
  {
    ghost var all := Waiting(w, k, svc.State(), f, excluded, passes);
    var t := Turns(k, passes);
    r := AllBusy;
    while t.left > 0
      invariant SlotInv(svc.State()) && r.AllBusy?
      invariant all == WaitingFrom(w, t, svc.State(), f, excluded)
      decreases t.left
    {
      WaitingOn(w, t, svc.State(), f, excluded);
      r := AcquirePass(svc, w, t.next, f, excluded);
      if !r.AllBusy? {
        return;
      }
      t := Onwards(t);
    }
  }

  /** One pass of the acquisition loop, after other callers had their turn. */
  method AcquirePass(svc: Service, w: World, k: nat, f: Filters, excluded: set<Token>) returns (r: Acquired)
    requires SlotInv(svc.State()) && Fair(w)
    modifies svc
    ensures SlotInv(svc.State())
    ensures Wait(svc.State(), r) == Pass(w, k, old(svc.State()), f, excluded)
  {
    Interfere(svc, w, k, |svc.leases|);
    AcquireKeepsSlots(svc.State(), w.me, f, excluded);
    r := svc.AcquireOnce(w.me, f, excluded);
  }

  /** The check of a taken slot, and its release unless the account is usable. */
  method CheckTaken(svc: Service, w: World, k: nat, f: Filters, id: nat, token: Token) returns (r: Tried)
    requires SlotInv(svc.State()) && Fair(w) && HasName(svc.State(), w.me, id, token) && Live(svc.State(), id)
    modifies svc
    ensures (svc.State(), r) == Judging(w, k, old(svc.State()), f, id, token)
    ensures r.Tried? && r.id == id && r.token == token && Decides(w, k, r.asked)
    ensures Judged(old(svc.State()), svc.State(), w, k, f, id, token, r.named, w.info(r.asked))
  {
    JudgingIsJudged(w, k, svc.State(), f, id, token);
    var checked, asked := FetchRemoteInfo(svc, w, k, id, token);
    r := Tried(id, token, if checked.Info? then checked.account.accessToken else token, asked);
    if checked.Info? && IsAvailable(checked.account) && Matches(checked.account, f) {
      return;
    }
    svc.ReleaseImageSlot(id, token);
  }

  /** One attempt: a slot and its check. */
  method TryOne(svc: Service, w: World, k: nat, f: Filters, excluded: set<Token>, passes: nat) returns (r: Tried)
    requires SlotInv(svc.State()) && Fair(w)
    modifies svc
    ensures (svc.State(), r) == Trying(w, k, old(svc.State()), f, excluded, passes)
    ensures TriedSo(old(svc.State()), svc.State(), w, f, excluded, k, passes, r)
  {
    TryingIsTried(w, k, svc.State(), f, excluded, passes);
    var got := AcquireSlot(svc, w, k, f, excluded, passes);
    match got {
      case AllBusy => r := Busy;
      case NoReady(error) => r := NoCandidate(error);
      case Got(token) =>
        TookIsNamed(svc.State(), w.me, f, excluded, token);
        r := CheckTaken(svc, w, FirstQuery(k, passes), f, LastId(svc.State()), token);
    }
  }

  /** One round of the loop: it ends the selection or goes on with one more attempt counted. */
  method TryRound(svc: Service, w: World, f: Filters, passes: nat, t: Tally) returns (next: Tally, x: Option<Selection>)
    requires SlotInv(svc.State()) && Fair(w) && |t.ids| < MAX_ATTEMPTS
    modifies svc
    ensures SlotInv(svc.State())
    ensures var r := Rounds(w, old(svc.State()), f, passes, t);
            if x.Some? then r.state == svc.State() && r.selection == x.value
            else |next.ids| == |t.ids| + 1 && r == Rounds(w, svc.State(), f, passes, next)
  {
    next := t;
    var one := TryOne(svc, w, RoundAt(passes, |t.ids|), f, t.attempted, passes);
    if !one.Tried? {
      x := Some(NoChoice(t, one));
    } else if VerdictOf(f, w.info(one.asked)).Usable? {
      x := Some(Choice(t, one));
    } else {
      next, x := Counted(t, one, ConfirmsLimited(w.info(one.asked))), None;
    }
  }

  /** The loop of the attempts. */
  method TryAccounts(svc: Service, w: World, f: Filters, excluded: set<Token>, passes: nat) returns (x: Selection)
    requires SlotInv(svc.State()) && Fair(w)
    modifies svc
    ensures var r := Rounds(w, old(svc.State()), f, passes, NoTally(excluded)); r.state == svc.State() && r.selection == x
  {
    var t := NoTally(excluded);
    ghost var all := Rounds(w, svc.State(), f, passes, t);
    for attempt := 0 to MAX_ATTEMPTS
      invariant SlotInv(svc.State()) && |t.ids| == attempt
      invariant all == Rounds(w, svc.State(), f, passes, t)
    {
      var done;
      t, done := TryRound(svc, w, f, passes, t);
      if done.Some? {
        return done.value;
      }
    }
    x := Ended(t, Exit(t));
  }

  /** Firefly accounts are not checked remotely: the first free slot is returned. */
  method TakeUnchecked(svc: Service, w: World, f: Filters, excluded: set<Token>, passes: nat) returns (x: Selection)
    requires SlotInv(svc.State()) && Fair(w) && f.source == FIREFLY
    modifies svc
    ensures var r := Selects(w, old(svc.State()), f, excluded, passes); r.state == svc.State() && r.selection == x
  {
    var got := AcquireSlot(svc, w, 0, f, excluded, passes);
    x := Unchecked(got, LastId(svc.State()), excluded);
  }

  /** `get_available_access_token`. It makes at most twenty attempts, on different tokens. It returns holding
      exactly one slot more than before, that of its last attempt, or it raises holding none more. The returned
      token is the live token of the account of that slot, unless the check found the refresh credential dead
      while invalid accounts are removed: then the account is gone. After attempts it reports exhausted quota
      if and only if the remote end confirmed every tried account limited. It gives up before twenty attempts
      only when no account is ready besides the tried ones, and it is still waiting only while every ready
      account is busy. */
  method GetAvailableAccessToken(svc: Service, w: World, f: Filters, excluded: set<Token>, passes: nat) returns (x: Selection)
    requires SlotInv(svc.State()) && Fair(w)
    modifies svc
    ensures var r := Selects(w, old(svc.State()), f, excluded, passes); r.state == svc.State() && r.selection == x
    ensures Balanced(old(svc.State()), svc.State(), w.me, x) && AnsweredSo(w, f, x) && GivesUpSo(svc.PoolNow(), f, passes, x)
    ensures f.source != FIREFLY ==> Attempts(w, old(svc.State()), svc.State(), excluded, passes, x.ids, x.tokens, x.asked)
    ensures f.source != FIREFLY ==> Remembers(excluded, x) && FirstCause(svc.PoolNow(), f, excluded, x)
    ensures f.source != FIREFLY ==>
              var taken := Selects(w, old(svc.State()), f, excluded, passes).taken;
              DeliverySo(taken, svc.State(), w, f, passes, x) && DeliveredWhen(taken, svc.State(), w, f, passes, x)
    ensures f.source == FIREFLY ==> UncheckedSo(old(svc.State()), svc.State(), w, f, excluded, passes, x)
  {
    SelectionPromises(w, svc.State(), f, excluded, passes);
    if f.source == FIREFLY {
      x := TakeUnchecked(svc, w, f, excluded, passes);
    } else {
      DeliveredIff(w, svc.State(), f, excluded, passes);
      x := TryAccounts(svc, w, f, excluded, passes);
    }
  }
}
