/** What a round of pool checks does: who is asked, in which order, and what becomes of everybody. */
module PoolChecks {
  import opened Sequences
  import opened PoolHealth

  // ---- Who is asked ----

  lemma {:induction false} SameToken(s: seq<Snapshot>, a: Snapshot, b: Snapshot)
    requires DistinctTokens(s) && a in s && b in s && a.token == b.token
    ensures a == b
  {
    var init, last := s[..|s| - 1], s[|s| - 1];
    assert s == init + [last];
    assert forall c :: c in init ==> c.token != last.token;
    if a in init && b in init {
      SameToken(init, a, b);
    }
  }

  lemma FirstOnes(stale: seq<Snapshot>, t: Token)
    ensures t in Elements(Tokens(stale[..Min(BATCH, |stale|)])) <==> exists i :: 0 <= i < |stale| && i < BATCH && stale[i].token == t
  {
    var first := stale[..Min(BATCH, |stale|)];
    if t in Elements(Tokens(first)) {
      var i :| 0 <= i < |first| && Tokens(first)[i] == t;
      assert stale[i].token == t;
    }
    if i :| 0 <= i < |stale| && i < BATCH && stale[i].token == t {
      assert Tokens(first)[i] == t;
    }
  }

  /** Only accounts that are due are asked. */
  lemma AskedAreDue(s: seq<Snapshot>, now: int, freshness: nat, t: Token)
    requires t in Batch(s, now, freshness)
    ensures exists a :: a in s && a.token == t && IsDue(a, now, freshness)
  {
    var stale := StaleAccounts(s, now, freshness);
    FirstOnes(stale, t);
    var i :| 0 <= i < |stale| && i < BATCH && stale[i].token == t;
    assert stale[i] in stale;
  }

  /** The account was never confirmed, or not later than the other one. */
  predicate WaitedLonger(a: Snapshot, b: Snapshot) {
    a.checkedAt.None? || (b.checkedAt.Some? && a.checkedAt.value <= b.checkedAt.value)
  }

  /** If an account that is due is not asked, ten are, and each of them has waited at least as long for a
      confirmation. */
  lemma LongestWaitingAreAsked(s: seq<Snapshot>, now: int, freshness: nat, b: Snapshot)
    requires DistinctTokens(s) && b in s && IsDue(b, now, freshness) && b.token !in Batch(s, now, freshness)
    ensures |Batch(s, now, freshness)| == 10
    ensures forall a :: a in s && a.token in Batch(s, now, freshness) ==> WaitedLonger(a, b)
  {
    var stale := StaleAccounts(s, now, freshness);
    BatchSize(s, now, freshness);
    StaleSorted(s, now, freshness);
    assert b in stale;
    var j :| 0 <= j < |stale| && stale[j] == b;
    FirstOnes(stale, b.token);
    assert j >= BATCH;
    forall a | a in s && a.token in Batch(s, now, freshness) ensures WaitedLonger(a, b) {
      FirstOnes(stale, a.token);
      var i :| 0 <= i < |stale| && i < BATCH && stale[i].token == a.token;
      assert stale[i] in stale;
      SameToken(s, a, stale[i]);
      assert NotLater(stale[i], stale[j]);
    }
    assert b.token in StaleTokens(s, now, freshness);
  }

  // ---- What becomes of them ----

  lemma {:induction false} RoundPieces(s: seq<Snapshot>, batch: set<Token>, w: World, k: nat, x: Snapshot)
    ensures x in CheckAll(s, batch, w, k) <==> exists a :: a in s && x in CheckOne(a, batch, w, k)
  {
    if s != [] {
      var init, last := s[..|s| - 1], s[|s| - 1];
      RoundPieces(init, batch, w, k, x);
      assert s == init + [last];
    }
  }

  /** An account that is not due is left alone by the round. */
  lemma NotDueIsLeftAlone(s: seq<Snapshot>, w: World, freshness: nat, k: nat, a: Snapshot)
    requires DistinctTokens(s) && a in s && !IsDue(a, w.clock(k), freshness)
    ensures a in NextRound(s, w, freshness, k)
  {
    if a.token in Batch(s, w.clock(k), freshness) {
      AskedAreDue(s, w.clock(k), freshness, a.token);
      var b :| b in s && b.token == a.token && IsDue(b, w.clock(k), freshness);
      SameToken(s, a, b);
      assert false;
    }
    assert a in CheckOne(a, Batch(s, w.clock(k), freshness), w, k);
    RoundPieces(s, Batch(s, w.clock(k), freshness), w, k, a);
  }

  /** Counted among the accounts that are available for sure. */
  predicate IsConfirmed(a: Snapshot, now: int, freshness: nat) {
    a.normal && a.checkedAt.Some? && 0 <= now - a.checkedAt.value <= freshness
  }

  /** What is known of an account from the outcome of its check: an answer confirms what it says until the window
      is over; an invalid account is out of use; a failed check tells nothing, but is not repeated in the window. */
  ghost predicate Tells(a: Snapshot, o: Outcome, freshness: nat, x: Snapshot) {
    match o
    case Gone => false
    case Invalid(_) => x.token == a.token && !x.normal && x.quota == 0
    case Errored(at, token) =>
      && x.token == token && x.normal == a.normal && x.quota == a.quota && x.quotaUnknown == a.quotaUnknown
      && x.checkedAt == a.checkedAt
      && forall now :: at <= now <= at + freshness ==> !IsDue(x, now, freshness)
    case Answered(at, token, normal, quota, unknown) =>
      && x.token == token && x.normal == normal && x.quota == quota && x.quotaUnknown == unknown
      && forall now :: at <= now <= at + freshness ==> !IsDue(x, now, freshness) && (IsConfirmed(x, now, freshness) <==> normal)
  }

  lemma CheckTells(a: Snapshot, o: Outcome, freshness: nat, x: Snapshot)
    requires x in Checked(a, o)
    ensures Tells(a, o, freshness, x)
  {
  }

  /** After a round every account stands for one that was there before: as it was if it was not asked, and as the
      outcome of its check says if it was. */
  lemma RoundTells(s: seq<Snapshot>, w: World, freshness: nat, k: nat, x: Snapshot)
    requires x in NextRound(s, w, freshness, k)
    ensures exists a :: a in s &&
              if a.token in Batch(s, w.clock(k), freshness) then Tells(a, w.outcome(k, a.token), freshness, x) else x == a
  {
    var batch := Batch(s, w.clock(k), freshness);
    RoundPieces(s, batch, w, k, x);
    var a :| a in s && x in CheckOne(a, batch, w, k);
    if a.token in batch {
      CheckTells(a, w.outcome(k, a.token), freshness, x);
    }
  }

  /** Every account that was asked is there afterwards, unless its check found it gone. */
  lemma AskedAreTold(s: seq<Snapshot>, w: World, freshness: nat, k: nat, a: Snapshot)
    requires a in s && a.token in Batch(s, w.clock(k), freshness) && !w.outcome(k, a.token).Gone?
    ensures exists x :: x in NextRound(s, w, freshness, k) && Tells(a, w.outcome(k, a.token), freshness, x)
  {
    var batch, o := Batch(s, w.clock(k), freshness), w.outcome(k, a.token);
    var x := Checked(a, o)[0];
    assert x in CheckOne(a, batch, w, k);
    RoundPieces(s, batch, w, k, x);
    CheckTells(a, o, freshness, x);
  }
}
