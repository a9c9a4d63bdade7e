/** The account pool: one function per lock-protected region of the account service, over the
    value of its fields. `AccountService` refines these functions with in-place updates. */
module AccountPool {
  import opened Sequences
  import opened AliasGraph

  // ---- Data ----

  /** Persistent account status: the Chinese pool states, the state written by a Firefly refresh,
      and the English states that exclude an account. */
  datatype Status = Normal | Active | Limited | Abnormal | Disabled | Retired(word: string) | Other(word: string)

  const FIREFLY := "firefly"

  datatype Account = Account(
    accessToken: Token,
    refreshToken: string,
    source: string,
    plan: string,
    status: Status,
    quota: nat,
    quotaUnknown: bool,
    success: nat,
    fail: nat)

  /** The caller's filters: an empty plan, plan set or source stands for "not given". */
  datatype Filters = Filters(plan: string, plans: set<string>, source: string)

  datatype SelectionError = QuotaExhausted | Unavailable

  /** `limit` is the configured concurrency per account; `order` is the insertion order of the
      account map. The last five fields are the queue of account checks after image failures. */
  datatype Pool = Pool(
    limit: nat,
    accounts: map<Token, Account>,
    order: seq<Token>,
    aliases: map<Token, Token>,
    inflight: map<Token, nat>,
    index: nat,
    pending: seq<Token>,
    pendingSet: set<Token>,
    active: set<Token>,
    rerun: set<Token>,
    startedAt: map<Token, int>)

  function Aliases(p: Pool): Graph {
    Graph(p.accounts.Keys, p.aliases)
  }

  function ResolveIn(p: Pool, t: Token): Token {
    Resolve(Aliases(p), t)
  }

  function Inflight(p: Pool, t: Token): nat {
    if t in p.inflight then p.inflight[t] else 0
  }

  // ---- The account map ----

  /** Assignment to a key: an existing key keeps its position, a new one goes last. */
  function PutAccount(p: Pool, t: Token, a: Account): Pool {
    p.(accounts := p.accounts[t := a],
       order := if t in p.accounts then p.order else p.order + [t])
  }

  function Outside(gone: set<Token>): Token -> bool {
    t => t !in gone
  }

  function PopAccount(p: Pool, t: Token): Pool {
    p.(accounts := p.accounts - {t}, order := Filter(p.order, Outside({t})))
  }

  /** Removal of resolved tokens: accounts, counters and every alias edge that touches them. */
  function RemoveAll(p: Pool, gone: set<Token>): Pool {
    var left := p.accounts - gone;
    p.(accounts := left,
       order := Filter(p.order, Outside(gone)),
       inflight := p.inflight - gone,
       aliases := Forgotten(Aliases(p), gone).next,
       index := if gone * p.accounts.Keys == {} then p.index
                else if left == map[] then 0
                else p.index % |left|)
  }

  // ---- Candidate selection ----

  predicate IsAvailable(a: Account) {
    match a.status
    case Disabled => false
    case Limited => false
    case Abnormal => false
    case Retired(_) => false
    case _ =>
      if a.source == FIREFLY then a.status.Normal? || a.status.Active? || a.quota > 0
      else a.quotaUnknown || a.status.Normal? || a.quota > 0
  }

  predicate Matches(a: Account, f: Filters) {
    && (f.plan == "" || (a.plan != "" && a.plan == f.plan))
    && (f.plans == {} || (a.plan != "" && a.plan in f.plans))
    && (if f.source == "" then a.source != FIREFLY else a.source == f.source)
  }

  predicate IsCandidate(p: Pool, f: Filters, excluded: set<Token>, t: Token) {
    t in p.accounts && t !in excluded && IsAvailable(p.accounts[t]) && Matches(p.accounts[t], f)
  }

  function ReadyTest(p: Pool, f: Filters, excluded: set<Token>): Token -> bool {
    t => IsCandidate(p, f, excluded, t)
  }

  function FreeTest(p: Pool): Token -> bool {
    t => Inflight(p, t) < p.limit
  }

  function ReadyTokens(p: Pool, f: Filters, excluded: set<Token>): seq<Token> {
    Filter(p.order, ReadyTest(p, f, excluded))
  }

  function AvailableTokens(p: Pool, f: Filters, excluded: set<Token>): seq<Token> {
    Filter(ReadyTokens(p, f, excluded), FreeTest(p))
  }

  /** The accounts the filters admit, whatever their status. */
  function MatchTest(p: Pool, f: Filters, excluded: set<Token>): Token -> bool {
    t => t in p.accounts && t !in excluded && Matches(p.accounts[t], f)
  }

  function LimitedTest(p: Pool): Token -> bool {
    t => t in p.accounts && p.accounts[t].status.Limited?
  }

  function NoReadyError(p: Pool, f: Filters, excluded: set<Token>): SelectionError {
    var matched := Filter(p.order, MatchTest(p, f, excluded));
    var limited := Filter(matched, LimitedTest(p));
    if |matched| > 0 && |limited| == |matched| then QuotaExhausted else Unavailable
  }

  /** One pass of the acquisition loop: no ready account, all ready accounts at their limit (the
      caller waits and tries again), or a slot taken on a token. */
  datatype Acquired = NoReady(error: SelectionError) | AllBusy | Got(token: Token)

  function AcquireResult(p: Pool, f: Filters, excluded: set<Token>): Acquired {
    var available := AvailableTokens(p, f, excluded);
    if ReadyTokens(p, f, excluded) == [] then NoReady(NoReadyError(p, f, excluded))
    else if available == [] then AllBusy
    else Got(available[p.index % |available|])
  }

  function Taken(p: Pool, t: Token): Pool {
    p.(index := p.index + 1, inflight := p.inflight[t := Inflight(p, t) + 1])
  }

  function Acquire(p: Pool, f: Filters, excluded: set<Token>): Pool {
    match AcquireResult(p, f, excluded)
    case Got(t) => Taken(p, t)
    case _ => p
  }

  // ---- Settling a slot ----

  function ReleaseSlot(p: Pool, name: Token): Pool {
    var t := ResolveIn(p, name);
    var current := Inflight(p, t);
    p.(inflight := if current <= 1 then p.inflight - {t} else p.inflight[t := current - 1])
  }

  /** What `mark_image_result` is told. `verify` says that the failure concerns the account. */
  datatype Outcome = Outcome(success: bool, verify: bool, consumed: bool, expected: Option<Token>)

  /** The account record after a result was charged to it. */
  function Charged(a: Account, o: Outcome): Account {
    var served := if o.success then a.(success := a.success + 1) else a;
    var spent :=
      if !o.consumed then served
      else
        var paid :=
          if served.quotaUnknown then served
          else served.(quota := if served.quota > 0 then served.quota - 1 else 0,
                       quotaUnknown := served.quota <= 1);
        if paid.status.Limited? then paid.(status := Normal, quotaUnknown := true) else paid;
    if !o.success && o.verify then spent.(fail := spent.fail + 1) else spent
  }

  function MarkResult(p: Pool, name: Token, o: Outcome): Pool {
    var t := ResolveIn(p, name);
    var q := ReleaseSlot(p, t);
    if t !in p.accounts then q
    else if o.expected.Some? && ResolveIn(p, o.expected.value) != t then q
    else PutAccount(q, t, Charged(p.accounts[t], o))
  }

  function ReportExhausted(p: Pool, name: Token, autoRemove: bool): Pool {
    var t := ResolveIn(p, name);
    var q := ReleaseSlot(p, t);
    if t !in p.accounts then q
    else if autoRemove then RemoveAll(q, {t})
    else PutAccount(q, t, p.accounts[t].(status := Limited, quota := 0, quotaUnknown := false))
  }

  // ---- Account updates and deletion ----

  /** Any region that rewrites the record of an existing account under its own token: recording a
      check, an error or an invalid token, and updating fields. `autoRemove` is the configuration
      switch that removes accounts whose quota a remote check found exhausted. */
  function UpdateAccount(p: Pool, name: Token, a: Account, autoRemove: bool): Pool {
    var t := ResolveIn(p, name);
    if t !in p.accounts then p
    else if a.status.Limited? && autoRemove then RemoveAll(p, {t})
    else PutAccount(p, t, a.(accessToken := t))
  }

  /** The record of a rejected token: the account is abnormal and has no quota. */
  function Rejected(a: Account): Account {
    a.(status := Abnormal, quota := 0)
  }

  /** `_record_invalid_token_seen`: marks the account that the token resolves to, if there is one. */
  function Invalidate(p: Pool, name: Token): Pool {
    var t := ResolveIn(p, name);
    if t in p.accounts then PutAccount(p, t, Rejected(p.accounts[t]).(accessToken := t)) else p
  }

  function DeleteTargets(p: Pool, names: set<Token>): set<Token> {
    set t | t in names && t != "" :: ResolveIn(p, t)
  }

  function Delete(p: Pool, names: set<Token>): Pool {
    RemoveAll(p, DeleteTargets(p, names))
  }

  // ---- Import ----

  function Import(p: Pool, t: Token, a: Account): Pool {
    PutAccount(p, t, a.(accessToken := t))
  }

  /** Importing a known Firefly identity under a new token: the account key is rotated, but the
      in-flight counter and the check queue keep the old token. */
  function Reimport(p: Pool, existing: Token, t: Token, a: Account): Pool {
    var q := PopAccount(p, existing);
    PutAccount(q.(aliases := p.aliases[existing := t]), t, a.(accessToken := t))
  }

  // ---- Token rotation ----

  /** A token response; an empty access token stands for "unchanged". */
  datatype TokenData = TokenData(access: Token, refresh: Option<string>, status: Option<Status>)

  /** The credential pair a compare-and-set caller expects to be current. */
  datatype Expected = Anything | Exactly(access: Token, refresh: string)

  datatype Applied = CredentialsChanged | NoAccount(token: Token) | Installed(token: Token)

  function ApplyResult(p: Pool, name: Token, data: TokenData, expected: Expected): Applied {
    var t := ResolveIn(p, name);
    if t !in p.accounts then if expected.Exactly? then CredentialsChanged else NoAccount(t)
    else if expected.Exactly? && (t != expected.access || p.accounts[t].refreshToken != expected.refresh) then
      CredentialsChanged
    else
      var n := if data.access == "" then t else data.access;
      if n != t && n in p.accounts then CredentialsChanged else Installed(n)
  }

  function Refreshed(a: Account, t: Token, data: TokenData): Account {
    a.(accessToken := t,
       refreshToken := if data.refresh.Some? then data.refresh.value else a.refreshToken,
       status := if data.status.Some? then data.status.value else a.status)
  }

  function Renamed(s: set<Token>, old_: Token, new_: Token): set<Token> {
    if old_ in s then s - {old_} + {new_} else s
  }

  function Replaced(s: seq<Token>, old_: Token, new_: Token): (r: seq<Token>)
    ensures |r| == |s| && forall i :: 0 <= i < |s| ==> r[i] == if s[i] == old_ then new_ else s[i]
  {
    seq(|s|, i requires 0 <= i < |s| => if s[i] == old_ then new_ else s[i])
  }

  function RenamedSeq(s: seq<Token>, old_: Token, new_: Token): seq<Token> {
    Distinct(Replaced(s, old_, new_))
  }

  /** The check queue after `old_` was rotated to `new_`. */
  function RotateQueue(p: Pool, old_: Token, new_: Token): Pool {
    var hit := old_ in p.pendingSet || old_ in p.pending;
    var pending := if hit then RenamedSeq(p.pending, old_, new_) else p.pending;
    p.(pending := pending,
       pendingSet := if hit then Elements(pending) else p.pendingSet,
       active := Renamed(p.active, old_, new_),
       rerun := Renamed(p.rerun, old_, new_),
       startedAt := if old_ in p.startedAt then (p.startedAt - {old_})[new_ := p.startedAt[old_]] else p.startedAt)
  }

  function RotateCounter(p: Pool, old_: Token, new_: Token): map<Token, nat> {
    var rest := p.inflight - {old_};
    if Inflight(p, old_) == 0 then rest
    else rest[new_ := (if new_ in rest then rest[new_] else 0) + Inflight(p, old_)]
  }

  /** Every structure of the pool after the live token `t` became `n`. */
  function RotatePool(p: Pool, t: Token, n: Token, a: Account): Pool {
    var q := RotateQueue(PopAccount(p, t), t, n);
    PutAccount(q.(aliases := p.aliases[t := n], inflight := RotateCounter(p, t, n)), n, a)
  }

  /** `_apply_refreshed_tokens`: installs a token response, renaming every structure when the
      access token changed. */
  function ApplyTokens(p: Pool, name: Token, data: TokenData, expected: Expected): Pool {
    match ApplyResult(p, name, data, expected)
    case Installed(n) =>
      var t := ResolveIn(p, name);
      var a := Refreshed(p.accounts[t], n, data);
      if n == t then PutAccount(p, t, a) else RotatePool(p, t, n, a)
    case _ => p
  }

  // ---- The queue of account checks ----

  const DEDUP_SECONDS := 30
  const MAX_CHECKS := 2

  /** The active tokens that stand for the account `t`. */
  function ActiveFor(p: Pool, t: Token): set<Token> {
    set x | x in p.active && ResolveIn(p, x) == t
  }

  function Remembered(p: Pool, now: int): map<Token, int> {
    map x | x in p.startedAt && (x in p.active || p.startedAt[x] >= now - DEDUP_SECONDS) :: p.startedAt[x]
  }

  /** The account was started less than the deduplication window ago. A start of 0 is what the
      code assumes when it remembers none. */
  predicate StartedRecently(p: Pool, t: Token, now: int) {
    if forall x :: x in p.startedAt ==> ResolveIn(p, x) != t then now < DEDUP_SECONDS
    else exists x :: x in p.startedAt && ResolveIn(p, x) == t && now - p.startedAt[x] < DEDUP_SECONDS
  }

  /** `pick` is the active token of the account that the code meets first in its set. */
  function Schedule(p: Pool, name: Token, force: bool, now: int, pick: Token): Pool {
    if name == "" then p
    else
      var t := ResolveIn(p, name);
      var q := p.(startedAt := Remembered(p, now));
      if t in p.pendingSet || ActiveFor(p, t) != {} then
        if force && ActiveFor(p, t) != {} then q.(rerun := p.rerun + {pick}) else q
      else if !force && StartedRecently(q, t, now) then q
      else q.(pending := p.pending + [t], pendingSet := p.pendingSet + {t})
  }

  /** One pass of the loop that starts pending checks. */
  function Start(p: Pool, now: int): Pool {
    if p.pending == [] || |p.active| >= MAX_CHECKS then p
    else
      var t := p.pending[0];
      p.(pending := p.pending[1..],
         pendingSet := p.pendingSet - {t},
         active := p.active + {t},
         startedAt := p.startedAt[t := now])
  }

  /** The end of the check that was started for the token `t`. */
  function Finish(p: Pool, t: Token): Pool {
    var r := ResolveIn(p, t);
    var again := t in p.rerun && r != "" && r !in p.pendingSet;
    p.(active := p.active - {t},
       rerun := p.rerun - {t},
       pending := if again then p.pending + [r] else p.pending,
       pendingSet := if again then p.pendingSet + {r} else p.pendingSet)
  }
}
