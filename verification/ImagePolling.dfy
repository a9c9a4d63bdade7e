/** Polling a conversation for image ids: the settle rule and the time budget. */
module ImagePolling {
  import opened Sequences

  function Least(a: real, b: real): real { if a <= b then a else b }

  function Most(a: real, b: real): real { if a >= b then a else b }

  // ---- Collecting ids ----

  /** `_add_unique`, and the loop over tool records, which takes blank ids too. */
  function AddUnique(values: seq<string>, candidates: seq<string>, blanks: bool): seq<string> {
    if candidates == [] then values
    else
      var so := AddUnique(values, candidates[..|candidates| - 1], blanks);
      var last := candidates[|candidates| - 1];
      if (last != "" || blanks) && last !in so then so + [last] else so
  }

  /** Ids are only ever added at the end, each once. */
  lemma {:induction false} AddUniqueGrows(values: seq<string>, candidates: seq<string>, blanks: bool)
    requires NoDuplicates(values)
    ensures values <= AddUnique(values, candidates, blanks) && NoDuplicates(AddUnique(values, candidates, blanks))
    ensures forall v :: v in AddUnique(values, candidates, blanks) <==> v in values || (v in candidates && (v != "" || blanks))
  {
    if candidates != [] {
      var n := |candidates| - 1;
      AddUniqueGrows(values, candidates[..n], blanks);
      assert candidates == candidates[..n] + [candidates[n]];
    }
  }

  method AddUniqueLoop(values: seq<string>, candidates: seq<string>, blanks: bool) returns (r: seq<string>)
    ensures r == AddUnique(values, candidates, blanks)
  {
    r := values;
    for i := 0 to |candidates|
      invariant r == AddUnique(values, candidates[..i], blanks)
    {
      assert candidates[..i + 1][..i] == candidates[..i];
      if (candidates[i] != "" || blanks) && candidates[i] !in r {
        r := r + [candidates[i]];
      }
    }
    assert candidates[..|candidates|] == candidates;
  }

  // ---- Attempts ----

  datatype Settings = Settings(interval: real, initialWait: real, settle: bool, settleSecs: real, checkBeforeHit: bool)

  /** The two lists of ids: files, and sediments. */
  datatype Kind = FileIds | SedimentIds

  /** The bounds that the configuration enforces. */
  predicate SettingsOk(c: Settings) {
    c.interval >= 0.5 && c.initialWait >= 0.0 && c.settleSecs >= 0.5
  }

  /** What reading the conversation gives: a document with the ids of its tool records, possibly a policy
      violation or an actionable text reply; an HTTP error; a network error. */
  datatype Answer =
    | Document(files: seq<string>, sediments: seq<string>, policy: bool, reply: bool)
    | HttpError(status: int, retryAfter: Option<nat>)
    | NetworkError
    | OtherError

  /** One attempt: how long it took, what it gave, the jitter drawn for a backoff, and how much longer
      than asked for the sleep behind it lasted. */
  datatype Attempt = Attempt(took: real, answer: Answer, jitter: real, drift: real)

  predicate AttemptOk(a: Attempt) {
    a.took >= 0.0 && 0.0 <= a.jitter <= 0.5 && a.drift >= 0.0
  }

  type Ids = (seq<string>, seq<string>)

  predicate NoIds(ids: Ids) {
    ids.0 == [] && ids.1 == []
  }

  datatype State = State(ids: Ids, lastHit: Option<Ids>, elapsed: real, slept: real, attempts: nat)

  datatype Outcome = Returned | TimedOut | PolicyViolation | TextReply | Raised | Running

  datatype Next = Go(state: State) | Stop(outcome: Outcome, state: State)

  function Remaining(timeout: real, s: State): real {
    timeout - s.elapsed
  }

  /** A sleep of the asked length, and then the drift. */
  function Slept(s: State, asked: real, drift: real): State {
    s.(elapsed := s.elapsed + asked + drift, slept := s.slept + asked)
  }

  /** `min(2 ** min(attempt, 4), 16)`. */
  function Backoff(attempts: nat): real {
    if attempts == 0 then 1.0 else if attempts == 1 then 2.0 else if attempts == 2 then 4.0 else if attempts == 3 then 8.0 else 16.0
  }

  /** `_retry_sleep`. */
  function Retry(timeout: real, s: State, retryAfter: Option<nat>, a: Attempt): Next {
    var base := if retryAfter.Some? then retryAfter.value as real else Backoff(s.attempts);
    if Remaining(timeout, s) <= 0.0 then Stop(TimedOut, s)
    else Go(Slept(s, Least(base + a.jitter, Remaining(timeout, s)), a.drift))
  }

  /** The settle rule on a document that leaves ids in the lists. */
  function Hit(c: Settings, timeout: real, s: State, drift: real): Next {
    if !c.checkBeforeHit || s.lastHit == Some(s.ids) || !c.settle then Stop(Returned, s)
    else
      var wait := Least(c.settleSecs, Most(0.0, Remaining(timeout, s)));
      var hit := s.(lastHit := Some(s.ids));
      if wait > 0.0 then Go(Slept(hit, wait, drift)) else Stop(Returned, hit)
  }

  /** One round of the loop, entered with time left. */
  function Round(c: Settings, timeout: real, before: State, a: Attempt): Next {
    var s := before.(elapsed := before.elapsed + a.took, attempts := before.attempts + 1);
    match a.answer
    case HttpError(status, retryAfter) =>
      if status in {429, 500, 502, 503, 504} then Retry(timeout, s, retryAfter, a) else Stop(Raised, s)
    case NetworkError => Retry(timeout, s, None, a)
    case OtherError => Stop(Raised, s)
    case Document(files, sediments, policy, reply) =>
      var got := s.(ids := (AddUnique(s.ids.0, files, true), AddUnique(s.ids.1, sediments, true)));
      if NoIds(got.ids) && policy then Stop(PolicyViolation, got)
      else if NoIds(got.ids) && reply then Stop(TextReply, got)
      else if !NoIds(got.ids) then Hit(c, timeout, got, a.drift)
      else
        var wait := Least(c.interval, Most(0.0, Remaining(timeout, got)));
        Go(if wait > 0.0 then Slept(got, wait, a.drift) else got)
  }

  /** The state before the first round: the given ids and the first sleep. */
  function Start(c: Settings, timeout: real, files: seq<string>, sediments: seq<string>, jitter: real, drift: real): State {
    var ids := (AddUnique([], files, false), AddUnique([], sediments, false));
    var s := State(ids, if NoIds(ids) then None else Some(ids), 0.0, 0.0, 0);
    var wanted :=
      if !NoIds(ids) && c.settle then c.settleSecs
      else if c.initialWait > 0.0 then c.initialWait + jitter
      else 0.0;
    var sleep := Least(wanted, Most(0.0, timeout));
    if sleep > 0.0 then Slept(s, sleep, drift) else s
  }

  /** The whole loop over a script of attempts; it is still running when the script ends with time left. */
  function Run(c: Settings, timeout: real, s: State, script: seq<Attempt>): (Outcome, State)
    decreases script
  {
    if Remaining(timeout, s) <= 0.0 then (TimedOut, s)
    else if script == [] then (Running, s)
    else
      match Round(c, timeout, s, script[0])
      case Stop(outcome, last) => (outcome, last)
      case Go(next) => Run(c, timeout, next, script[1..])
  }

  // ---- What every state keeps ----

  ghost predicate Keeps(timeout: real, s: State) {
    && NoDuplicates(s.ids.0) && NoDuplicates(s.ids.1)
    && 0.0 <= s.slept <= s.elapsed && s.slept <= Most(0.0, timeout)
  }

  ghost predicate Extends(older: Ids, newer: Ids) {
    older.0 <= newer.0 && older.1 <= newer.1
  }

  function After(n: Next): State {
    n.state
  }

  lemma RoundKeeps(c: Settings, timeout: real, s: State, a: Attempt)
    requires SettingsOk(c) && AttemptOk(a) && Keeps(timeout, s)
    ensures Keeps(timeout, After(Round(c, timeout, s, a))) && Extends(s.ids, After(Round(c, timeout, s, a)).ids)
    ensures After(Round(c, timeout, s, a)).elapsed >= s.elapsed + a.took
  {
    if a.answer.Document? {
      AddUniqueGrows(s.ids.0, a.answer.files, true);
      AddUniqueGrows(s.ids.1, a.answer.sediments, true);
    }
  }

  /** In every run the ids never shrink or repeat, and the sleeps asked for never exceed the timeout. */
  lemma {:induction false} RunKeeps(c: Settings, timeout: real, s: State, script: seq<Attempt>)
    requires SettingsOk(c) && (forall a :: a in script ==> AttemptOk(a)) && Keeps(timeout, s)
    ensures Keeps(timeout, Run(c, timeout, s, script).1) && Extends(s.ids, Run(c, timeout, s, script).1.ids)
    decreases script
  {
    if Remaining(timeout, s) > 0.0 && script != [] {
      RoundKeeps(c, timeout, s, script[0]);
      var next := Round(c, timeout, s, script[0]);
      if next.Go? {
        RunKeeps(c, timeout, next.state, script[1..]);
      }
    }
  }

  lemma StartKeeps(c: Settings, timeout: real, files: seq<string>, sediments: seq<string>, jitter: real, drift: real)
    requires SettingsOk(c) && jitter >= 0.0 && drift >= 0.0
    ensures Keeps(timeout, Start(c, timeout, files, sediments, jitter, drift))
    ensures Noted(Start(c, timeout, files, sediments, jitter, drift))
  {
    AddUniqueGrows([], files, false);
    AddUniqueGrows([], sediments, false);
  }

  /** The attempts that a run made. */
  function Made(c: Settings, timeout: real, s: State, script: seq<Attempt>): nat
    decreases script
  {
    if Remaining(timeout, s) <= 0.0 || script == [] then 0
    else
      match Round(c, timeout, s, script[0])
      case Stop(_, _) => 1
      case Go(next) => 1 + Made(c, timeout, next, script[1..])
  }

  function Listed(ids: Ids, kind: Kind): seq<string> {
    if kind.FileIds? then ids.0 else ids.1
  }

  /** The ids of a kind that an answer names. */
  function Named(a: Answer, kind: Kind): seq<string> {
    match a
    case Document(files, sediments, _, _) => if kind.FileIds? then files else sediments
    case _ => []
  }

  ghost predicate Seen(script: seq<Attempt>, n: nat, kind: Kind, id: string)
    requires n <= |script|
  {
    exists i :: 0 <= i < n && id in Named(script[i].answer, kind)
  }

  lemma {:induction false} MadeIsInScript(c: Settings, timeout: real, s: State, script: seq<Attempt>)
    ensures Made(c, timeout, s, script) <= |script|
    decreases script
  {
    if Remaining(timeout, s) > 0.0 && script != [] {
      var next := Round(c, timeout, s, script[0]);
      if next.Go? {
        MadeIsInScript(c, timeout, next.state, script[1..]);
      }
    }
  }

  lemma RoundCollects(c: Settings, timeout: real, s: State, a: Attempt, kind: Kind, id: string)
    requires NoDuplicates(s.ids.0) && NoDuplicates(s.ids.1)
    ensures NoDuplicates(After(Round(c, timeout, s, a)).ids.0) && NoDuplicates(After(Round(c, timeout, s, a)).ids.1)
    ensures id in Listed(After(Round(c, timeout, s, a)).ids, kind) <==> id in Listed(s.ids, kind) || id in Named(a.answer, kind)
  {
    if a.answer.Document? {
      AddUniqueGrows(s.ids.0, a.answer.files, true);
      AddUniqueGrows(s.ids.1, a.answer.sediments, true);
    }
  }

  /** The ids at the end of a run, of either kind, are those it started with and those of the documents it
      read. */
  lemma {:induction false} RunCollects(c: Settings, timeout: real, s: State, script: seq<Attempt>, kind: Kind, id: string)
    requires NoDuplicates(s.ids.0) && NoDuplicates(s.ids.1)
    ensures Made(c, timeout, s, script) <= |script|
    ensures id in Listed(Run(c, timeout, s, script).1.ids, kind) <==>
            id in Listed(s.ids, kind) || Seen(script, Made(c, timeout, s, script), kind, id)
    decreases script
  {
    MadeIsInScript(c, timeout, s, script);
    if Remaining(timeout, s) > 0.0 && script != [] {
      RoundCollects(c, timeout, s, script[0], kind, id);
      var next := Round(c, timeout, s, script[0]);
      if next.Go? {
        RunCollects(c, timeout, next.state, script[1..], kind, id);
      }
      SeenSplits(script, Made(c, timeout, s, script), kind, id);
    }
  }

  lemma SeenSplits(script: seq<Attempt>, n: nat, kind: Kind, id: string)
    requires 1 <= n <= |script|
    ensures Seen(script, n, kind, id) <==> id in Named(script[0].answer, kind) || Seen(script[1..], n - 1, kind, id)
  {
    if Seen(script[1..], n - 1, kind, id) {
      var i :| 0 <= i < n - 1 && id in Named(script[1..][i].answer, kind);
      assert script[i + 1] == script[1..][i];
    }
    if Seen(script, n, kind, id) {
      var i :| 0 <= i < n && id in Named(script[i].answer, kind);
      if i > 0 {
        assert script[1..][i - 1] == script[i];
      }
    }
  }

  // ---- The settle rule ----

  /** The last hit is what is in the lists. */
  ghost predicate Noted(s: State) {
    s.lastHit == if NoIds(s.ids) then None else Some(s.ids)
  }

  /** `last` is the state before the attempt that ended the run. */
  ghost predicate Confirmed(timeout: real, last: State, a: Attempt, s: State) {
    && a.answer.Document? && !NoIds(s.ids)
    && (s.ids == last.ids || Remaining(timeout, s) <= 0.0)
  }

  lemma RoundConfirms(c: Settings, timeout: real, s: State, a: Attempt)
    requires c.checkBeforeHit && c.settle && SettingsOk(c) && Noted(s)
    ensures var n := Round(c, timeout, s, a);
            && (n.Go? ==> Noted(n.state))
            && (n.Stop? && n.outcome == Returned ==> Confirmed(timeout, s, a, n.state))
  {
  }

  /** With both confirmation settings on, a normal return means that the last poll succeeded and either
      added nothing to non-empty lists, or found the budget spent. */
  lemma {:induction false} ReturnIsConfirmed(c: Settings, timeout: real, s: State, script: seq<Attempt>) returns (k: nat, last: State)
    requires c.checkBeforeHit && c.settle && SettingsOk(c) && Noted(s)
    requires Run(c, timeout, s, script).0 == Returned
    ensures k < |script| && Confirmed(timeout, last, script[k], Run(c, timeout, s, script).1)
    ensures Run(c, timeout, s, script[..k]) == (Running, last)
    decreases script
  {
    RoundConfirms(c, timeout, s, script[0]);
    var next := Round(c, timeout, s, script[0]);
    if next.Stop? {
      k, last := 0, s;
    } else {
      k, last := ReturnIsConfirmed(c, timeout, next.state, script[1..]);
      k := k + 1;
      assert script[..k][1..] == script[1..][..k - 1];
    }
  }

  // ---- What a poll ends with, read off the script ----

  /** An answer that ends the poll with an error: anything but a document, a network error or one of the
      statuses of a busy or failing server. */
  predicate IsFatal(a: Answer) {
    a.OtherError? || (a.HttpError? && a.status !in {429, 500, 502, 503, 504})
  }

  /** No id was given, and the first `n` answers name none. */
  ghost predicate NothingKnown(ids: Ids, script: seq<Attempt>, n: nat)
    requires n <= |script|
  {
    NoIds(ids) && forall i :: 0 <= i < n ==> NamesNothing(script[i].answer)
  }

  predicate NamesNothing(a: Answer) {
    a.Document? ==> a.files == [] && a.sediments == []
  }

  /** Every id that the answer names was given, or named by one of the first `n` answers. */
  ghost predicate BringsNothingNew(ids: Ids, script: seq<Attempt>, n: nat, a: Answer)
    requires n <= |script|
  {
    forall kind, id :: id in Named(a, kind) ==> id in Listed(ids, kind) || Seen(script, n, kind, id)
  }

  /** The document is returned as it is: nothing is to be confirmed, or it confirms what was known. */
  ghost predicate Confirms(c: Settings, ids: Ids, script: seq<Attempt>, i: nat)
    requires i < |script|
  {
    !c.checkBeforeHit || !c.settle || BringsNothingNew(ids, script, i, script[i].answer)
  }

  /** The attempt leaves the poll undecided: the server is busy or out of reach, or the document names no id
      where none is known and says nothing else, or it brings ids that are still to be confirmed. */
  ghost predicate LeavesOpen(c: Settings, ids: Ids, script: seq<Attempt>, i: nat)
    requires i < |script|
  {
    var a := script[i].answer;
    && !IsFatal(a)
    && (a.Document? ==>
          if NothingKnown(ids, script, i + 1) then !a.policy && !a.reply else !Confirms(c, ids, script, i))
  }

  /** The time that is left when the i-th attempt is answered. */
  function LeftWhenAnswered(c: Settings, timeout: real, s: State, script: seq<Attempt>, i: nat): real
    requires i < |script|
  {
    Remaining(timeout, Run(c, timeout, s, script[..i]).1) - script[i].took
  }

  /** How the poll ends, in terms of the attempts that it made; `left` is the time that was left when the last
      one was answered. */
  ghost predicate EndsAsScripted(c: Settings, timeout: real, ids: Ids, script: seq<Attempt>, n: nat, left: real, outcome: Outcome, last: State)
    requires n <= |script|
  {
    && (outcome == Raised <==> n > 0 && IsFatal(script[n - 1].answer))
    && (outcome == PolicyViolation <==>
          n > 0 && script[n - 1].answer.Document? && script[n - 1].answer.policy && NothingKnown(ids, script, n))
    && (outcome == TextReply <==>
          n > 0 && script[n - 1].answer.Document? && !script[n - 1].answer.policy && script[n - 1].answer.reply && NothingKnown(ids, script, n))
    && (outcome == Returned <==>
          n > 0 && script[n - 1].answer.Document? && !NothingKnown(ids, script, n) &&
          (Confirms(c, ids, script, n - 1) || left <= 0.0))
    && (outcome == TimedOut ==> Remaining(timeout, last) <= 0.0)
    && (outcome == Running ==> n == |script| && Remaining(timeout, last) > 0.0)
    && (forall i :: 0 <= i < n - 1 ==> LeavesOpen(c, ids, script, i))
  }

  lemma {:induction false} AddUniqueSameIff(values: seq<string>, candidates: seq<string>)
    ensures AddUnique(values, candidates, true) == values <==> forall x :: x in candidates ==> x in values
    ensures values <= AddUnique(values, candidates, true)
  {
    if candidates != [] {
      var n := |candidates| - 1;
      AddUniqueSameIff(values, candidates[..n]);
      assert forall x :: x in candidates <==> x in candidates[..n] || x == candidates[n];
    }
  }

  /** What one round can know, as far as confirmation matters. */
  ghost predicate Ready(c: Settings, s: State) {
    && NoDuplicates(s.ids.0) && NoDuplicates(s.ids.1)
    && (c.checkBeforeHit && c.settle ==> Noted(s))
  }

  lemma HitEnds(c: Settings, timeout: real, s: State, a: Attempt, got: State)
    requires SettingsOk(c) && a.answer.Document? && Ready(c, s) && got.lastHit == s.lastHit && !NoIds(got.ids)
    requires got.ids == (AddUnique(s.ids.0, a.answer.files, true), AddUnique(s.ids.1, a.answer.sediments, true))
    ensures var h := Hit(c, timeout, got, a.drift);
            && (h.Stop? <==> !c.checkBeforeHit || !c.settle || got.ids == s.ids || Remaining(timeout, got) <= 0.0)
            && (h.Stop? ==> h.outcome == Returned)
            && (h.Go? ==> Ready(c, h.state) && h.state.ids == got.ids)
  {
    AddUniqueGrows(s.ids.0, a.answer.files, true);
    AddUniqueGrows(s.ids.1, a.answer.sediments, true);
  }

  /** One attempt that is not known to end in an error. */
  ghost predicate RoundSo(c: Settings, timeout: real, s: State, a: Attempt, n: Next) {
    var nothing, same, left := NoIds(s.ids) && NamesNothing(a.answer), NamesOnly(a.answer, s.ids), Remaining(timeout, s) - a.took;
    if IsFatal(a.answer) then n.Stop? && n.outcome == Raised
    else if a.answer.Document? && nothing && a.answer.policy then n.Stop? && n.outcome == PolicyViolation
    else if a.answer.Document? && nothing && a.answer.reply then n.Stop? && n.outcome == TextReply
    else if a.answer.Document? && !nothing && (!c.checkBeforeHit || !c.settle || same || left <= 0.0) then n.Stop? && n.outcome == Returned
    else if n.Stop? then n.outcome == TimedOut && !a.answer.Document? && Remaining(timeout, n.state) <= 0.0
    else Ready(c, n.state)
  }

  ghost predicate NamesOnly(a: Answer, ids: Ids) {
    forall kind, id :: id in Named(a, kind) ==> id in Listed(ids, kind)
  }

  lemma NamesOnlyIff(a: Answer, ids: Ids)
    requires a.Document?
    ensures (AddUnique(ids.0, a.files, true), AddUnique(ids.1, a.sediments, true)) == ids <==> NamesOnly(a, ids)
    ensures NoIds((AddUnique(ids.0, a.files, true), AddUnique(ids.1, a.sediments, true))) <==> NoIds(ids) && NamesNothing(a)
  {
    AddUniqueSameIff(ids.0, a.files);
    AddUniqueSameIff(ids.1, a.sediments);
    assert Named(a, FileIds) == a.files && Listed(ids, FileIds) == ids.0;
    assert Named(a, SedimentIds) == a.sediments && Listed(ids, SedimentIds) == ids.1;
    if ids.0 == [] && a.files != [] {
      assert a.files[0] in a.files;
    }
    if ids.1 == [] && a.sediments != [] {
      assert a.sediments[0] in a.sediments;
    }
  }

  lemma RoundEnds(c: Settings, timeout: real, s: State, a: Attempt)
    requires SettingsOk(c) && Ready(c, s)
    ensures RoundSo(c, timeout, s, a, Round(c, timeout, s, a))
  {
    if a.answer.Document? {
      var got := s.(elapsed := s.elapsed + a.took, attempts := s.attempts + 1,
                    ids := (AddUnique(s.ids.0, a.answer.files, true), AddUnique(s.ids.1, a.answer.sediments, true)));
      NamesOnlyIff(a.answer, s.ids);
      if NoIds(got.ids) {
        assert s.ids == got.ids;
      } else {
        HitEnds(c, timeout, s, a, got);
      }
    }
  }

  /** After one attempt more is known by what it names, and nothing else. */
  ghost predicate Learns(ids: Ids, a: Answer, more: Ids) {
    && (NoIds(more) <==> NoIds(ids) && NamesNothing(a))
    && (forall kind, id :: id in Listed(more, kind) <==> id in Listed(ids, kind) || id in Named(a, kind))
  }

  lemma RoundLearns(c: Settings, timeout: real, s: State, a: Attempt)
    requires NoDuplicates(s.ids.0) && NoDuplicates(s.ids.1)
    ensures Learns(s.ids, a.answer, After(Round(c, timeout, s, a)).ids)
  {
    if a.answer.Document? {
      NamesOnlyIff(a.answer, s.ids);
    }
    forall kind, id ensures id in Listed(After(Round(c, timeout, s, a)).ids, kind) <==> id in Listed(s.ids, kind) || id in Named(a.answer, kind) {
      RoundCollects(c, timeout, s, a, kind, id);
    }
  }

  lemma NothingShifts(ids: Ids, script: seq<Attempt>, n: nat, more: Ids)
    requires 1 <= n <= |script| && Learns(ids, script[0].answer, more)
    ensures NothingKnown(ids, script, n) <==> NothingKnown(more, script[1..], n - 1)
  {
    if NothingKnown(more, script[1..], n - 1) {
      forall i | 0 <= i < n ensures NamesNothing(script[i].answer) {
        if i > 0 {
          assert script[i] == script[1..][i - 1];
        }
      }
    }
    if NothingKnown(ids, script, n) {
      assert NamesNothing(script[0].answer);
      forall i | 0 <= i < n - 1 ensures NamesNothing(script[1..][i].answer) {
        assert script[i + 1] == script[1..][i];
      }
    }
  }

  lemma NewShifts(ids: Ids, script: seq<Attempt>, n: nat, more: Ids, a: Answer)
    requires 1 <= n <= |script| && Learns(ids, script[0].answer, more)
    ensures BringsNothingNew(ids, script, n, a) <==> BringsNothingNew(more, script[1..], n - 1, a)
  {
    forall kind, id
      ensures (id in Listed(ids, kind) || Seen(script, n, kind, id)) <==>
              (id in Listed(more, kind) || Seen(script[1..], n - 1, kind, id))
    {
      SeenSplits(script, n, kind, id);
    }
  }

  lemma OpenShifts(c: Settings, ids: Ids, script: seq<Attempt>, i: nat, more: Ids)
    requires 1 <= i < |script| && Learns(ids, script[0].answer, more)
    ensures Confirms(c, ids, script, i) <==> Confirms(c, more, script[1..], i - 1)
    ensures LeavesOpen(c, ids, script, i) <==> LeavesOpen(c, more, script[1..], i - 1)
  {
    assert script[1..][i - 1] == script[i];
    NewShifts(ids, script, i, more, script[i].answer);
    NothingShifts(ids, script, i + 1, more);
  }

  lemma FirstIsOpen(c: Settings, timeout: real, s: State, script: seq<Attempt>)
    requires script != [] && Ready(c, s) && RoundSo(c, timeout, s, script[0], Round(c, timeout, s, script[0]))
    ensures NothingKnown(s.ids, script, 1) <==> NoIds(s.ids) && NamesNothing(script[0].answer)
    ensures BringsNothingNew(s.ids, script, 0, script[0].answer) <==> NamesOnly(script[0].answer, s.ids)
    ensures Round(c, timeout, s, script[0]).Go? ==> LeavesOpen(c, s.ids, script, 0)
  {
    forall kind, id ensures !Seen(script, 0, kind, id) {
    }
  }

  lemma LeftShifts(c: Settings, timeout: real, s: State, script: seq<Attempt>, i: nat)
    requires 1 <= i < |script| && Remaining(timeout, s) > 0.0 && Round(c, timeout, s, script[0]).Go?
    ensures LeftWhenAnswered(c, timeout, s, script, i) ==
            LeftWhenAnswered(c, timeout, Round(c, timeout, s, script[0]).state, script[1..], i - 1)
  {
    assert script[..i][1..] == script[1..][..i - 1] && script[1..][i - 1] == script[i];
  }

  /** The poll ends after its first attempt. */
  lemma EndsAtOnce(c: Settings, timeout: real, s: State, script: seq<Attempt>)
    requires script != [] && Ready(c, s) && Remaining(timeout, s) > 0.0 && Round(c, timeout, s, script[0]).Stop?
    requires RoundSo(c, timeout, s, script[0], Round(c, timeout, s, script[0]))
    ensures var n := Round(c, timeout, s, script[0]);
            EndsAsScripted(c, timeout, s.ids, script, 1, LeftWhenAnswered(c, timeout, s, script, 0), n.outcome, n.state)
  {
    FirstIsOpen(c, timeout, s, script);
    assert Run(c, timeout, s, script[..0]).1 == s;
  }

  lemma EndsLater(c: Settings, timeout: real, s: State, script: seq<Attempt>, more: Ids, n: nat, left: real, outcome: Outcome, last: State)
    requires 1 <= n <= |script| && Learns(s.ids, script[0].answer, more) && LeavesOpen(c, s.ids, script, 0)
    requires EndsAsScripted(c, timeout, more, script[1..], n - 1, left, outcome, last)
    requires n == 1 && script[0].answer.Document? && !NothingKnown(s.ids, script, 1) ==> left > 0.0
    ensures EndsAsScripted(c, timeout, s.ids, script, n, left, outcome, last)
  {
    NothingShifts(s.ids, script, n, more);
    if n > 1 {
      assert script[1..][n - 2] == script[n - 1];
      OpenShifts(c, s.ids, script, n - 1, more);
    } else {
      assert !IsFatal(script[0].answer);
    }
    forall i | 0 <= i < n - 1 ensures LeavesOpen(c, s.ids, script, i) {
      if i > 0 {
        assert LeavesOpen(c, more, script[1..], i - 1);
        OpenShifts(c, s.ids, script, i, more);
      }
    }
  }

  /** The time that is left when the last attempt of the run is answered. */
  ghost function LeftAtLast(c: Settings, timeout: real, s: State, script: seq<Attempt>): real {
    var n := Made(c, timeout, s, script);
    if 0 < n <= |script| then LeftWhenAnswered(c, timeout, s, script, n - 1) else 0.0
  }

  lemma LeftAtLastShifts(c: Settings, timeout: real, s: State, script: seq<Attempt>)
    requires script != [] && Remaining(timeout, s) > 0.0 && Round(c, timeout, s, script[0]).Go?
    requires Ready(c, s) && RoundSo(c, timeout, s, script[0], Round(c, timeout, s, script[0]))
    ensures var next := Round(c, timeout, s, script[0]).state;
            && Made(c, timeout, s, script) == Made(c, timeout, next, script[1..]) + 1 <= |script|
            && (Made(c, timeout, s, script) > 1 ==> LeftAtLast(c, timeout, s, script) == LeftAtLast(c, timeout, next, script[1..]))
            && (Made(c, timeout, s, script) == 1 && script[0].answer.Document? && !NothingKnown(s.ids, script, 1) ==>
                  LeftAtLast(c, timeout, s, script) > 0.0)
  {
    var next := Round(c, timeout, s, script[0]).state;
    var n := Made(c, timeout, s, script);
    MadeIsInScript(c, timeout, next, script[1..]);
    if n > 1 {
      LeftShifts(c, timeout, s, script, n - 1);
    } else {
      FirstIsOpen(c, timeout, s, script);
      assert Run(c, timeout, s, script[..0]).1 == s;
    }
  }

  /** Over every run, read off the answers alone: an error is raised exactly when the last attempt made is
      answered fatally; a policy violation or a text reply is reported exactly when the last document says so
      and no id was given or read; ids are returned exactly when the last attempt is a document, some id is
      known, and it confirms what was known, or nothing is to be confirmed, or the time is spent. Every earlier
      attempt leaves the poll open. Otherwise the poll times out or is still running. */
  lemma {:induction false} PollEnds(c: Settings, timeout: real, s: State, script: seq<Attempt>)
    requires SettingsOk(c) && Ready(c, s)
    ensures Made(c, timeout, s, script) <= |script|
    ensures EndsAsScripted(c, timeout, s.ids, script, Made(c, timeout, s, script), LeftAtLast(c, timeout, s, script),
                           Run(c, timeout, s, script).0, Run(c, timeout, s, script).1)
    decreases script
  {
    MadeIsInScript(c, timeout, s, script);
    if Remaining(timeout, s) > 0.0 && script != [] {
      var next := Round(c, timeout, s, script[0]);
      RoundEnds(c, timeout, s, script[0]);
      if next.Stop? {
        EndsAtOnce(c, timeout, s, script);
      } else {
        PollEnds(c, timeout, next.state, script[1..]);
        RoundLearns(c, timeout, s, script[0]);
        FirstIsOpen(c, timeout, s, script);
        LeftAtLastShifts(c, timeout, s, script);
        EndsAfterFirst(c, timeout, s, script, next.state);
      }
    }
  }

  lemma EndsAfterFirst(c: Settings, timeout: real, s: State, script: seq<Attempt>, next: State)
    requires script != [] && Remaining(timeout, s) > 0.0 && Round(c, timeout, s, script[0]) == Go(next)
    requires Learns(s.ids, script[0].answer, next.ids) && LeavesOpen(c, s.ids, script, 0)
    requires var n := Made(c, timeout, next, script[1..]);
             n < |script| && EndsAsScripted(c, timeout, next.ids, script[1..], n, LeftAtLast(c, timeout, next, script[1..]),
                                            Run(c, timeout, next, script[1..]).0, Run(c, timeout, next, script[1..]).1)
    requires Made(c, timeout, s, script) == Made(c, timeout, next, script[1..]) + 1
    requires Made(c, timeout, s, script) > 1 ==> LeftAtLast(c, timeout, s, script) == LeftAtLast(c, timeout, next, script[1..])
    requires Made(c, timeout, s, script) == 1 && script[0].answer.Document? && !NothingKnown(s.ids, script, 1) ==>
               LeftAtLast(c, timeout, s, script) > 0.0
    ensures EndsAsScripted(c, timeout, s.ids, script, Made(c, timeout, s, script), LeftAtLast(c, timeout, s, script),
                           Run(c, timeout, s, script).0, Run(c, timeout, s, script).1)
  {
    var n := Made(c, timeout, s, script);
    var (outcome, last) := Run(c, timeout, next, script[1..]);
    assert EndsAsScripted(c, timeout, next.ids, script[1..], n - 1, LeftAtLast(c, timeout, s, script), outcome, last);
    EndsLater(c, timeout, s, script, next.ids, n, LeftAtLast(c, timeout, s, script), outcome, last);
  }

  // ---- Ending ----

  /** A timeout is reported only when the budget is spent. */
  lemma {:induction false} TimeoutMeansSpent(c: Settings, timeout: real, s: State, script: seq<Attempt>)
    requires Run(c, timeout, s, script).0 == TimedOut
    ensures Remaining(timeout, Run(c, timeout, s, script).1) <= 0.0
    decreases script
  {
    if Remaining(timeout, s) > 0.0 {
      var next := Round(c, timeout, s, script[0]);
      if next.Go? {
        TimeoutMeansSpent(c, timeout, next.state, script[1..]);
      }
    }
  }

  lemma RoundCounts(c: Settings, timeout: real, s: State, a: Attempt)
    ensures After(Round(c, timeout, s, a)).attempts == s.attempts + 1
  {
  }

  /** `n * d`. */
  function Total(n: nat, d: real): real {
    if n == 0 then 0.0 else Total(n - 1, d) + d
  }

  lemma {:induction false} TotalIsProduct(n: nat, d: real)
    ensures Total(n, d) == n as real * d
  {
    if n > 0 {
      TotalIsProduct(n - 1, d);
      assert n as real * d == (n - 1) as real * d + d;
    }
  }

  /** If every attempt takes at least `d` seconds, fewer than `timeout / d + 1` attempts are made. */
  lemma {:induction false} AttemptsAreBounded(c: Settings, timeout: real, s: State, script: seq<Attempt>, d: real)
    requires SettingsOk(c) && forall a :: a in script ==> AttemptOk(a) && a.took >= d
    requires Keeps(timeout, s) && Total(s.attempts, d) <= s.elapsed
    ensures var n := Run(c, timeout, s, script).1.attempts; n > s.attempts ==> Total(n - 1, d) < timeout
    decreases script
  {
    if Remaining(timeout, s) > 0.0 && script != [] {
      var a := script[0];
      assert a in script;
      RoundKeeps(c, timeout, s, a);
      RoundCounts(c, timeout, s, a);
      var next := Round(c, timeout, s, a);
      if next.Go? {
        AttemptsAreBounded(c, timeout, next.state, script[1..], d);
      }
    }
  }

  /** The server asks for an immediate retry. */
  predicate AdvisesAtOnce(a: Answer) {
    a.HttpError? && a.retryAfter == Some(0)
  }

  ghost predicate NobodyHurries(script: seq<Attempt>) {
    forall a :: a in script ==> !AdvisesAtOnce(a.answer)
  }

  /** A round that goes on has waited for at least half a second, or for as long as there was time. */
  lemma RoundWaits(c: Settings, timeout: real, s: State, a: Attempt)
    requires SettingsOk(c) && AttemptOk(a) && !AdvisesAtOnce(a.answer)
    ensures var n := Round(c, timeout, s, a);
            n.Go? ==> n.state.elapsed >= s.elapsed + 0.5 || Remaining(timeout, n.state) <= 0.0
  {
  }

  /** However fast the answers come, fewer than `2 * timeout + 1` attempts are made, unless a server asks for
      an immediate retry. */
  lemma {:induction false} PollsAreSpaced(c: Settings, timeout: real, s: State, script: seq<Attempt>)
    requires SettingsOk(c) && AttemptsOk(script) && NobodyHurries(script) && Total(s.attempts, 0.5) <= s.elapsed
    ensures var n := Run(c, timeout, s, script).1.attempts; n > s.attempts ==> Total(n - 1, 0.5) < timeout
    decreases script
  {
    if Remaining(timeout, s) > 0.0 && script != [] {
      var a := script[0];
      assert a in script;
      RoundWaits(c, timeout, s, a);
      RoundCounts(c, timeout, s, a);
      var next := Round(c, timeout, s, a);
      if next.Go? && Remaining(timeout, next.state) > 0.0 {
        PollsAreSpaced(c, timeout, next.state, script[1..]);
      }
    }
  }

  /** The wait before the first question, given enough time: without an initial wait there is no jitter either. */
  function FirstWait(c: Settings, given: bool, jitter: real): real {
    if given && c.settle then c.settleSecs else if c.initialWait == 0.0 then 0.0 else c.initialWait + jitter
  }

  /** Nothing is asked before the first sleep is over: the settle time when ids were given, the initial wait
      and its jitter otherwise, or all the time there is. */
  lemma FirstSleepIsKept(c: Settings, timeout: real, files: seq<string>, sediments: seq<string>, jitter: real, drift: real)
    requires SettingsOk(c) && jitter >= 0.0 && drift >= 0.0
    ensures var s := Start(c, timeout, files, sediments, jitter, drift);
            var given := (exists id :: id in files && id != "") || (exists id :: id in sediments && id != "");
            && (Remaining(timeout, s) <= 0.0 || s.elapsed >= if given && c.settle then c.settleSecs else c.initialWait)
            && s.slept == Most(0.0, Least(timeout, FirstWait(c, given, jitter))) && s.attempts == 0
  {
    GivenIff(files);
    GivenIff(sediments);
    var s := Start(c, timeout, files, sediments, jitter, drift);
    assert s.ids == (AddUnique([], files, false), AddUnique([], sediments, false));
    assert !NoIds(s.ids) <==> (exists id :: id in files && id != "") || (exists id :: id in sediments && id != "");
    assert Remaining(timeout, s) <= 0.0 || s.elapsed >= if !NoIds(s.ids) && c.settle then c.settleSecs else c.initialWait;
    assert s.slept == Most(0.0, Least(timeout, FirstWait(c, !NoIds(s.ids), jitter)));
  }

  lemma GivenIff(ids: seq<string>)
    ensures AddUnique([], ids, false) != [] <==> exists id :: id in ids && id != ""
  {
    AddUniqueGrows([], ids, false);
    var kept := AddUnique([], ids, false);
    if kept != [] {
      assert kept[0] in kept;
    }
    if id :| id in ids && id != "" {
      assert id in kept;
    }
  }

  ghost predicate EachTakes(script: seq<Attempt>, d: real) {
    forall a :: a in script ==> a.took >= d
  }

  ghost predicate AttemptsOk(script: seq<Attempt>) {
    forall a :: a in script ==> AttemptOk(a)
  }

  /** A hit that still has to settle can be returned by some continuation if and only if more time is left
      than the settle sleep takes; otherwise the run ends in a timeout whatever comes after, although the
      lists hold ids. */
  lemma LateHitIsReturnedIff(c: Settings, timeout: real, s: State, drift: real)
    requires SettingsOk(c) && c.checkBeforeHit && c.settle && drift >= 0.0
    requires !NoIds(s.ids) && s.lastHit != Some(s.ids) && 0.0 < Remaining(timeout, s)
    ensures Hit(c, timeout, s, drift).Go? && Hit(c, timeout, s, drift).state.ids == s.ids
    ensures var next := Hit(c, timeout, s, drift).state;
            && ((exists more :: AttemptsOk(more) && Run(c, timeout, next, more).0 == Returned && Run(c, timeout, next, more).1.ids == s.ids) <==>
                Remaining(timeout, s) > c.settleSecs + drift)
            && (Remaining(timeout, s) <= c.settleSecs + drift ==> forall more :: Run(c, timeout, next, more) == (TimedOut, next))
  {
    var next := Hit(c, timeout, s, drift).state;
    if Remaining(timeout, s) > c.settleSecs + drift {
      QuickConfirmation(c, timeout, next);
    }
  }

  /** One poll that takes no time and finds nothing new ends a run that has just noted its ids. */
  lemma QuickConfirmation(c: Settings, timeout: real, s: State)
    requires c.checkBeforeHit && !NoIds(s.ids) && s.lastHit == Some(s.ids) && 0.0 < Remaining(timeout, s)
    ensures var more := [Attempt(0.0, Document([], [], false, false), 0.0, 0.0)];
            AttemptsOk(more) && Run(c, timeout, s, more).0 == Returned && Run(c, timeout, s, more).1.ids == s.ids
  {
    var a := Attempt(0.0, Document([], [], false, false), 0.0, 0.0);
    assert (AddUnique(s.ids.0, [], true), AddUnique(s.ids.1, [], true)) == s.ids;
    assert Round(c, timeout, s, a).Stop?;
  }

  /** A retry ends the run when the time is spent. Otherwise it sleeps for no longer than the time that is
      left, and unless that is shorter for at least as long as the server advised and half a second more at
      most; without advice the wait grows with the attempts, up to sixteen seconds. */
  lemma RetryHonoursAdvice(timeout: real, s: State, retryAfter: Option<nat>, a: Attempt)
    requires AttemptOk(a)
    ensures var n := Retry(timeout, s, retryAfter, a);
            && (n.Stop? <==> Remaining(timeout, s) <= 0.0) && (n.Stop? ==> n == Stop(TimedOut, s))
            && (n.Go? ==>
                  var asked := n.state.slept - s.slept;
                  && 0.0 <= asked <= Remaining(timeout, s)
                  && n.state == s.(slept := s.slept + asked, elapsed := s.elapsed + asked + a.drift)
                  && (retryAfter.Some? ==> asked == Remaining(timeout, s) || retryAfter.value as real <= asked <= retryAfter.value as real + 0.5)
                  && (retryAfter.None? ==> asked == Remaining(timeout, s) || 1.0 <= asked <= 16.5))
  {
  }

  /** The wait starts at a second, doubles with each attempt, and stays at sixteen. */
  lemma LongerWaits(m: nat, n: nat)
    requires m <= n
    ensures 1.0 <= Backoff(m) <= Backoff(n) <= 16.0
    ensures Backoff(0) == 1.0 && Backoff(n + 1) == Least(2.0 * Backoff(n), 16.0)
  {
  }

  /** A round that meets a busy server or no network, with time left, sleeps as the server advised, or without
      advice by the back-off of the attempt, with its jitter of up to half a second more, or for all the time that
      is left. */
  lemma BusyRoundWaits(c: Settings, timeout: real, s: State, a: Attempt)
    requires AttemptOk(a) && !a.answer.Document? && !IsFatal(a.answer)
    ensures var n, left := Round(c, timeout, s, a), Remaining(timeout, s) - a.took;
            var asked := n.state.slept - s.slept;
            var wanted := if a.answer.HttpError? && a.answer.retryAfter.Some? then a.answer.retryAfter.value as real else Backoff(s.attempts + 1);
            && (n.Go? <==> left > 0.0)
            && (n.Go? ==> asked == Least(wanted + a.jitter, left) <= Least(wanted + 0.5, left))
            && (n.Go? ==> n.state.ids == s.ids && n.state.elapsed == s.elapsed + a.took + asked + a.drift)
  {
  }

  /** A document without ids, where none is known, is asked for again after the interval, or after all the time
      that is left. */
  lemma QuietRoundWaits(c: Settings, timeout: real, s: State, a: Attempt)
    requires SettingsOk(c) && AttemptOk(a) && a.answer.Document? && NoIds(s.ids) && NamesNothing(a.answer)
    requires !a.answer.policy && !a.answer.reply
    ensures var n, left := Round(c, timeout, s, a), Remaining(timeout, s) - a.took;
            n.Go? && n.state.slept - s.slept == Least(c.interval, Most(0.0, left)) && NoIds(n.state.ids)
  {
    NamesOnlyIff(a.answer, s.ids);
  }

  // ---- A whole call ----

  /** A document that a run of the loop ends with, and the state before it was read. */
  ghost predicate ConfirmedBy(c: Settings, timeout: real, start: State, script: seq<Attempt>, k: nat, last: State, s: State) {
    k < |script| && Run(c, timeout, start, script[..k]) == (Running, last) && Confirmed(timeout, last, script[k], s)
  }

  /** What a caller may rely on when the poll is over, or still running. */
  ghost predicate Polled(c: Settings, timeout: real, files: seq<string>, sediments: seq<string>, start: State,
          script: seq<Attempt>, outcome: Outcome, s: State) {
    && Keeps(timeout, s) && Extends(start.ids, s.ids)
    && Made(c, timeout, start, script) <= |script|
    && (forall id :: id in s.ids.0 <==> (id in files && id != "") || Seen(script, Made(c, timeout, start, script), FileIds, id))
    && (forall id :: id in s.ids.1 <==> (id in sediments && id != "") || Seen(script, Made(c, timeout, start, script), SedimentIds, id))
    && (outcome == TimedOut ==> Remaining(timeout, s) <= 0.0)
    && (c.checkBeforeHit && c.settle && outcome == Returned ==>
          exists k: nat, last :: ConfirmedBy(c, timeout, start, script, k, last, s))
    && (forall d :: EachTakes(script, d) && s.attempts > 0 ==> Total(s.attempts - 1, d) < timeout)
    && (NobodyHurries(script) && s.attempts > 0 ==> Total(s.attempts - 1, 0.5) < timeout)
    && EndsAsScripted(c, timeout, start.ids, script, Made(c, timeout, start, script), LeftAtLast(c, timeout, start, script), outcome, s)
  }

  /** Every run from the first sleep on: the sleeps stay within the timeout, the ids are exactly those that
      were given or read, a normal return is confirmed, a timeout means that the budget is spent, the number
      of attempts is bounded, and the answers decide how it ends. */
  lemma EveryPoll(c: Settings, timeout: real, files: seq<string>, sediments: seq<string>, jitter: real, drift: real, script: seq<Attempt>)
    requires SettingsOk(c) && jitter >= 0.0 && drift >= 0.0 && AttemptsOk(script)
    ensures var start := Start(c, timeout, files, sediments, jitter, drift);
            Polled(c, timeout, files, sediments, start, script, Run(c, timeout, start, script).0, Run(c, timeout, start, script).1)
  {
    var start := Start(c, timeout, files, sediments, jitter, drift);
    var (outcome, s) := Run(c, timeout, start, script);
    StartKeeps(c, timeout, files, sediments, jitter, drift);
    RunKeeps(c, timeout, start, script);
    MadeIsInScript(c, timeout, start, script);
    EveryId(c, timeout, files, sediments, start, script);
    PollEnds(c, timeout, start, script);
    if NobodyHurries(script) {
      PollsAreSpaced(c, timeout, start, script);
    }
    if outcome == TimedOut {
      TimeoutMeansSpent(c, timeout, start, script);
    }
    if c.checkBeforeHit && c.settle && outcome == Returned {
      var k, last := ReturnIsConfirmed(c, timeout, start, script);
      assert ConfirmedBy(c, timeout, start, script, k, last, s);
    }
    forall d | EachTakes(script, d) && s.attempts > 0 ensures Total(s.attempts - 1, d) < timeout {
      AttemptsAreBounded(c, timeout, start, script, d);
    }
  }

  lemma EveryId(c: Settings, timeout: real, files: seq<string>, sediments: seq<string>, start: State, script: seq<Attempt>)
    requires start.ids == (AddUnique([], files, false), AddUnique([], sediments, false))
    requires Made(c, timeout, start, script) <= |script|
    ensures var s := Run(c, timeout, start, script).1;
            && (forall id :: id in s.ids.0 <==> (id in files && id != "") || Seen(script, Made(c, timeout, start, script), FileIds, id))
            && (forall id :: id in s.ids.1 <==> (id in sediments && id != "") || Seen(script, Made(c, timeout, start, script), SedimentIds, id))
  {
    AddUniqueGrows([], files, false);
    AddUniqueGrows([], sediments, false);
    var s, n := Run(c, timeout, start, script).1, Made(c, timeout, start, script);
    forall id ensures id in s.ids.0 <==> (id in files && id != "") || Seen(script, n, FileIds, id) {
      RunCollects(c, timeout, start, script, FileIds, id);
    }
    forall id ensures id in s.ids.1 <==> (id in sediments && id != "") || Seen(script, n, SedimentIds, id) {
      RunCollects(c, timeout, start, script, SedimentIds, id);
    }
  }

  // ---- The loop itself ----

  /** `_retry_sleep`. */
  method RetrySleep(timeout: real, s: State, retryAfter: Option<nat>, a: Attempt) returns (n: Next)
    ensures n == Retry(timeout, s, retryAfter, a)
  {
    var base := if retryAfter.Some? then retryAfter.value as real else Backoff(s.attempts);
    var backoff := base + a.jitter;
    var remaining := timeout - s.elapsed;
    if remaining <= 0.0 {
      return Stop(TimedOut, s);
    }
    n := Go(Slept(s, Least(backoff, remaining), a.drift));
  }

  /** The end of a round whose document leaves ids in the lists. */
  method Settle(c: Settings, timeout: real, s: State, drift: real) returns (n: Next)
    ensures n == Hit(c, timeout, s, drift)
  {
    if !c.checkBeforeHit || s.lastHit == Some(s.ids) {
      return Stop(Returned, s);
    }
    if !c.settle {
      return Stop(Returned, s);
    }
    var hit := s.(lastHit := Some(s.ids));
    var wait := Least(c.settleSecs, Most(0.0, timeout - s.elapsed));
    if wait > 0.0 {
      return Go(Slept(hit, wait, drift));
    }
    n := Stop(Returned, hit);
  }

  /** One round of the loop. */
  method OneRound(c: Settings, timeout: real, before: State, a: Attempt) returns (n: Next)
    ensures n == Round(c, timeout, before, a)
  {
    var s := before.(elapsed := before.elapsed + a.took, attempts := before.attempts + 1);
    match a.answer {
      case OtherError =>
        n := Stop(Raised, s);
      case HttpError(status, retryAfter) =>
        if status in {429, 500, 502, 503, 504} {
          n := RetrySleep(timeout, s, retryAfter, a);
        } else {
          n := Stop(Raised, s);
        }
      case NetworkError =>
        n := RetrySleep(timeout, s, None, a);
      case Document(newFiles, newSediments, policy, reply) =>
        var files := AddUniqueLoop(s.ids.0, newFiles, true);
        var sediments := AddUniqueLoop(s.ids.1, newSediments, true);
        s := s.(ids := (files, sediments));
        if files == [] && sediments == [] {
          if policy {
            return Stop(PolicyViolation, s);
          }
          if reply {
            return Stop(TextReply, s);
          }
          var wait := Least(c.interval, Most(0.0, timeout - s.elapsed));
          if wait > 0.0 {
            s := Slept(s, wait, a.drift);
          }
          n := Go(s);
        } else {
          n := Settle(c, timeout, s, a.drift);
        }
    }
  }

  method FirstSleep(c: Settings, timeout: real, initialFiles: seq<string>, initialSediments: seq<string>, jitter: real, drift: real)
    returns (s: State)
    ensures s == Start(c, timeout, initialFiles, initialSediments, jitter, drift)
  {
    var files := AddUniqueLoop([], initialFiles, false);
    var sediments := AddUniqueLoop([], initialSediments, false);
    var hasInitial := files != [] || sediments != [];
    s := State((files, sediments), if hasInitial then Some((files, sediments)) else None, 0.0, 0.0, 0);
    if hasInitial && c.settle {
      var sleep := Least(c.settleSecs, Most(0.0, timeout));
      if sleep > 0.0 {
        s := Slept(s, sleep, drift);
      }
    } else if c.initialWait > 0.0 {
      var sleep := Least(c.initialWait + jitter, Most(0.0, timeout));
      if sleep > 0.0 {
        s := Slept(s, sleep, drift);
      }
    }
  }

  /** `_poll_image_results`, fed by a script of attempts. */
  method PollImageResults(c: Settings, timeout: real, initialFiles: seq<string>, initialSediments: seq<string>,
                          jitter: real, drift: real, script: seq<Attempt>)
    returns (outcome: Outcome, s: State)
    ensures (outcome, s) == Run(c, timeout, Start(c, timeout, initialFiles, initialSediments, jitter, drift), script)
    ensures SettingsOk(c) && jitter >= 0.0 && drift >= 0.0 && AttemptsOk(script) ==>
              Polled(c, timeout, initialFiles, initialSediments, Start(c, timeout, initialFiles, initialSediments, jitter, drift), script, outcome, s)
  {
    if SettingsOk(c) && jitter >= 0.0 && drift >= 0.0 && AttemptsOk(script) {
      EveryPoll(c, timeout, initialFiles, initialSediments, jitter, drift, script);
    }
    s := FirstSleep(c, timeout, initialFiles, initialSediments, jitter, drift);
    ghost var start := s;
    var i := 0;
    while timeout - s.elapsed > 0.0
      invariant i <= |script|
      invariant Run(c, timeout, start, script) == Run(c, timeout, s, script[i..])
      decreases |script| - i
    {
      if i == |script| {
        return Running, s;
      }
      var n := OneRound(c, timeout, s, script[i]);
      assert script[i..][0] == script[i] && script[i..][1..] == script[i + 1..];
      if n.Stop? {
        return n.outcome, n.state;
      }
      s, i := n.state, i + 1;
    }
    outcome := TimedOut;
  }
}
