/** The alias graph of the account pool: retired access tokens point to the token that replaced
    them, and a token is resolved by following those links until a live account, or a token that
    was never replaced, is met. */
module AliasGraph {

  type Token = string

  /** `live` is the key set of the account map, `next` the alias map from old tokens to new ones. */
  datatype Graph = Graph(live: set<Token>, next: map<Token, Token>)

  /** The walk goes on from `t`: it is non-empty, dead and was replaced. */
  predicate Hops(g: Graph, t: Token) {
    t != "" && t !in g.live && t in g.next
  }

  /** The walk with its set of tokens already seen, as the resolver performs it. */
  function ResolveFrom(g: Graph, t: Token, seen: set<Token>): Token
    decreases g.next.Keys - seen
  {
    if Hops(g, t) && t !in seen then ResolveFrom(g, g.next[t], seen + {t}) else t
  }

  function Resolve(g: Graph, t: Token): Token {
    ResolveFrom(g, t, {})
  }

  // ---- Walks, independent of the resolver ----

  /** `p` follows the aliases: every element but the last is dead and aliased to its successor. */
  ghost predicate Path(g: Graph, p: seq<Token>) {
    && |p| > 0
    && forall i :: 0 <= i < |p| - 1 ==> Hops(g, p[i]) && p[i + 1] == g.next[p[i]]
  }

  /** Every alias cycle passes through a live account. */
  ghost predicate NoDeadCycle(g: Graph) {
    forall p: seq<Token> :: Path(g, p) && |p| > 1 ==> p[0] != p[|p| - 1]
  }

  /** The walk from `t` meets `x`. */
  ghost predicate Visits(g: Graph, t: Token, x: Token) {
    exists p: seq<Token> :: Path(g, p) && p[0] == t && p[|p| - 1] == x
  }

  lemma SubPath(g: Graph, p: seq<Token>, i: nat, j: nat)
    requires Path(g, p) && i < j <= |p|
    ensures Path(g, p[i..j])
  {
  }

  /** Two walks from the same token agree as far as both go. */
  lemma {:induction false} PathPrefix(g: Graph, p: seq<Token>, q: seq<Token>, k: nat)
    requires Path(g, p) && Path(g, q) && p[0] == q[0]
    requires k < |p| && k < |q|
    ensures p[k] == q[k]
  {
    if k > 0 {
      PathPrefix(g, p, q, k - 1);
    }
  }

  lemma {:induction false} WalkEnds(g: Graph, q: seq<Token>, seen: set<Token>) returns (p: seq<Token>)
    requires NoDeadCycle(g) && Path(g, q)
    requires seen == set i | 0 <= i < |q| - 1 :: q[i]
    ensures Path(g, p) && p[0] == q[0] && !Hops(g, p[|p| - 1])
    ensures p[|p| - 1] == ResolveFrom(g, q[|q| - 1], seen)
    decreases g.next.Keys - seen
  {
    var t := q[|q| - 1];
    if Hops(g, t) {
      forall i | 0 <= i < |q| - 1 ensures q[i] != t {
        SubPath(g, q, i, |q|);
      }
      var r := q + [g.next[t]];
      assert |r| - 1 == |q| && forall i :: 0 <= i < |q| ==> r[i] == q[i];
      assert seen + {t} == set i | 0 <= i < |r| - 1 :: r[i] by {
        assert r[|q| - 1] == t;
        forall x ensures x in seen + {t} <==> x in set i | 0 <= i < |r| - 1 :: r[i] {
          if x in seen {
            var i :| 0 <= i < |q| - 1 && q[i] == x;
            assert r[i] == x;
          }
        }
      }
      p := WalkEnds(g, r, seen + {t});
    } else {
      p := q;
    }
  }

  /** Resolution ends at a live account or at a token that was never replaced, and the result is
      the end of the walk. */
  lemma ResolveWalk(g: Graph, t: Token) returns (p: seq<Token>)
    requires NoDeadCycle(g)
    ensures Path(g, p) && p[0] == t && p[|p| - 1] == Resolve(g, t)
    ensures !Hops(g, Resolve(g, t))
  {
    p := WalkEnds(g, [t], {});
  }

  lemma ResolutionEnds(g: Graph, t: Token)
    requires NoDeadCycle(g)
    ensures Resolve(g, t) == "" || Resolve(g, t) in g.live || Resolve(g, t) !in g.next
  {
    var _ := ResolveWalk(g, t);
  }

  /** The converse: a token on a cycle of dead tokens has no resolution, so the invariant is exactly
      what resolution needs. */
  lemma DeadCycleNeverEnds(g: Graph, p: seq<Token>)
    requires Path(g, p) && |p| > 1 && p[0] == p[|p| - 1]
    ensures Hops(g, Resolve(g, p[0]))
  {
    var cycle := set i | 0 <= i < |p| - 1 :: p[i];
    forall x | x in cycle ensures Hops(g, x) && g.next[x] in cycle {
      var i :| 0 <= i < |p| - 1 && p[i] == x;
      var k := if i + 1 < |p| - 1 then i + 1 else 0;
      assert p[k] == g.next[x];
    }
    StaysInside(g, cycle, p[0], {});
  }

  lemma {:induction false} StaysInside(g: Graph, s: set<Token>, t: Token, seen: set<Token>)
    requires forall x :: x in s ==> Hops(g, x) && g.next[x] in s
    requires t in s
    ensures ResolveFrom(g, t, seen) in s
    decreases g.next.Keys - seen
  {
    if t !in seen {
      StaysInside(g, s, g.next[t], seen + {t});
    }
  }

  /** A walk that cannot go on determines the result of resolution. */
  lemma WalkResolves(g: Graph, p: seq<Token>)
    requires NoDeadCycle(g) && Path(g, p) && !Hops(g, p[|p| - 1])
    ensures Resolve(g, p[0]) == p[|p| - 1]
  {
    var q := ResolveWalk(g, p[0]);
    if |q| < |p| {
      PathPrefix(g, p, q, |q| - 1);
      assert false;
    }
    if |p| < |q| {
      PathPrefix(g, p, q, |p| - 1);
      assert false;
    }
    PathPrefix(g, p, q, |p| - 1);
  }

  lemma ResolveTerminal(g: Graph, t: Token)
    requires !Hops(g, t)
    ensures Resolve(g, t) == t
  {
  }

  /** Resolving twice changes nothing: the lock regions may resolve a token again. */
  lemma ResolveIdempotent(g: Graph, t: Token)
    requires NoDeadCycle(g)
    ensures Resolve(g, Resolve(g, t)) == Resolve(g, t)
  {
    var _ := ResolveWalk(g, t);
  }

  /** The tokens a walk meets are exactly those on the walk to its end. */
  lemma VisitsOnWalk(g: Graph, p: seq<Token>, x: Token)
    requires NoDeadCycle(g) && Path(g, p) && !Hops(g, p[|p| - 1])
    ensures Visits(g, p[0], x) <==> x in p
  {
    if Visits(g, p[0], x) {
      var q :| Path(g, q) && q[0] == p[0] && q[|q| - 1] == x;
      if |q| > |p| {
        PathPrefix(g, p, q, |p| - 1);
        assert false;
      }
      PathPrefix(g, p, q, |q| - 1);
    }
    if x in p {
      var i :| 0 <= i < |p| && p[i] == x;
      SubPath(g, p, 0, i + 1);
      assert p[..i + 1][0] == p[0];
    }
  }

  // ---- Rotation: `old` is retired and `new` takes its place ----

  function Rotated(g: Graph, old_: Token, new_: Token): Graph {
    Graph(g.live - {old_} + {new_}, g.next[old_ := new_])
  }

  lemma RotationKeepsNoDeadCycle(g: Graph, old_: Token, new_: Token)
    requires NoDeadCycle(g) && old_ in g.live && new_ !in g.live
    ensures NoDeadCycle(Rotated(g, old_, new_))
  {
    var h := Rotated(g, old_, new_);
    forall p: seq<Token> | Path(h, p) && |p| > 1
      ensures p[0] != p[|p| - 1]
    {
      if p[0] == p[|p| - 1] {
        // The successor of `old_` is live, so a cycle of dead tokens avoids `old_`.
        forall i | 0 <= i < |p| - 1
          ensures Hops(g, p[i]) && p[i + 1] == g.next[p[i]]
        {
          assert Hops(h, p[i]);
          var k := if i + 1 < |p| - 1 then i + 1 else 0;
          assert Hops(h, p[k]) && p[k] == p[i + 1] != new_;
        }
        assert Path(g, p);
      }
    }
  }

  /** A rotation redirects exactly the tokens that resolved to `old_`, and those whose walk met
      `new_`; every other token resolves as before. */
  lemma RotationRedirects(g: Graph, old_: Token, new_: Token, t: Token)
    requires NoDeadCycle(g) && old_ in g.live && new_ !in g.live && new_ != "" && old_ != ""
    ensures Resolve(Rotated(g, old_, new_), t) ==
            if Resolve(g, t) == old_ || Visits(g, t, new_) then new_ else Resolve(g, t)
  {
    var h := Rotated(g, old_, new_);
    RotationKeepsNoDeadCycle(g, old_, new_);
    var p := ResolveWalk(g, t);
    VisitsOnWalk(g, p, new_);
    if new_ in p {
      var i := FirstIndex(p, new_);
      assert Path(h, p[..i + 1]);
      WalkResolves(h, p[..i + 1]);
    } else if p[|p| - 1] == old_ {
      assert Path(h, p + [new_]);
      WalkResolves(h, p + [new_]);
    } else {
      assert Path(h, p);
      WalkResolves(h, p);
    }
  }

  lemma {:induction false} FirstIndex(p: seq<Token>, x: Token) returns (i: nat)
    requires x in p
    ensures i < |p| && p[i] == x && x !in p[..i]
  {
    i := 0;
    while p[i] != x
      invariant i < |p| && x !in p[..i] && x in p[i..]
      decreases |p| - i
    {
      i := i + 1;
    }
  }

  /** When `new_` is unaliased, or already resolves to `old_`, the tokens that resolved to another
      live account keep resolving to it. */
  lemma CleanRotationRedirects(g: Graph, old_: Token, new_: Token, t: Token)
    requires NoDeadCycle(g) && old_ in g.live && new_ !in g.live && new_ != "" && old_ != ""
    requires new_ !in g.next || Resolve(g, new_) == old_
    ensures Resolve(g, t) in g.live && Resolve(g, t) != old_ ==>
              Resolve(Rotated(g, old_, new_), t) == Resolve(g, t)
    ensures Resolve(g, t) == old_ ==> Resolve(Rotated(g, old_, new_), t) == new_
    ensures Resolve(Rotated(g, old_, new_), t) == new_ ==> Resolve(g, t) in {old_, new_}
  {
    RotationRedirects(g, old_, new_, t);
    if Visits(g, t, new_) {
      VisitedResolvesAlike(g, t, new_);
    }
  }

  lemma VisitedResolvesAlike(g: Graph, t: Token, x: Token)
    requires NoDeadCycle(g) && Visits(g, t, x)
    ensures Resolve(g, t) == Resolve(g, x)
  {
    var p := ResolveWalk(g, t);
    VisitsOnWalk(g, p, x);
    var i :| 0 <= i < |p| && p[i] == x;
    SubPath(g, p, i, |p|);
    WalkResolves(g, p[i..]);
  }

  // ---- Import: `t0` becomes live ----

  function Imported(g: Graph, t0: Token): Graph {
    g.(live := g.live + {t0})
  }

  lemma ImportKeepsNoDeadCycle(g: Graph, t0: Token)
    requires NoDeadCycle(g)
    ensures NoDeadCycle(Imported(g, t0))
  {
    forall p: seq<Token> | Path(Imported(g, t0), p) && |p| > 1
      ensures p[0] != p[|p| - 1]
    {
      assert forall i :: 0 <= i < |p| - 1 ==> Hops(Imported(g, t0), p[i]) ==> Hops(g, p[i]);
      assert Path(g, p);
    }
  }

  lemma ImportRedirects(g: Graph, t0: Token, t: Token)
    requires NoDeadCycle(g)
    ensures Resolve(Imported(g, t0), t) == if Visits(g, t, t0) then t0 else Resolve(g, t)
  {
    var h := Imported(g, t0);
    ImportKeepsNoDeadCycle(g, t0);
    var p := ResolveWalk(g, t);
    VisitsOnWalk(g, p, t0);
    if t0 in p {
      var i := FirstIndex(p, t0);
      assert Path(h, p[..i + 1]);
      WalkResolves(h, p[..i + 1]);
    } else {
      assert Path(h, p);
      WalkResolves(h, p);
    }
  }

  // ---- Deletion: the accounts and alias edges of `gone` disappear ----

  function Forgotten(g: Graph, gone: set<Token>): Graph {
    Graph(g.live - gone, map t | t in g.next && t !in gone && g.next[t] !in gone :: g.next[t])
  }

  lemma DeletionKeepsNoDeadCycle(g: Graph, gone: set<Token>)
    requires NoDeadCycle(g)
    ensures NoDeadCycle(Forgotten(g, gone))
  {
    var h := Forgotten(g, gone);
    forall p: seq<Token> | Path(h, p) && |p| > 1
      ensures p[0] != p[|p| - 1]
    {
      if p[0] == p[|p| - 1] {
        // A token of the cycle still has its edge, so neither it nor its predecessor was deleted.
        forall i | 0 <= i < |p| - 1
          ensures Hops(g, p[i]) && p[i + 1] == g.next[p[i]]
        {
          assert Hops(h, p[i]);
        }
        assert Path(g, p);
      }
    }
  }

  /** Deleting resolved tokens leaves the resolution of all other tokens alone, and no token
      resolves to an account that was deleted. */
  lemma DeletionRedirects(g: Graph, gone: set<Token>, t: Token)
    requires NoDeadCycle(g) && forall x :: x in gone ==> !Hops(g, x)
    ensures Resolve(g, t) !in gone ==> Resolve(Forgotten(g, gone), t) == Resolve(g, t)
    ensures Resolve(g, t) in gone ==> Resolve(Forgotten(g, gone), t) !in Forgotten(g, gone).live
  {
    var h := Forgotten(g, gone);
    DeletionKeepsNoDeadCycle(g, gone);
    var p := ResolveWalk(g, t);
    var n := |p| - 1;
    if p[n] !in gone {
      forall i | 0 <= i < n ensures Hops(h, p[i]) && p[i + 1] == h.next[p[i]] {
        assert Hops(g, p[i]);
        assert i + 1 < n ==> Hops(g, p[i + 1]);
        assert p[i] !in gone && p[i + 1] !in gone;
      }
      assert Path(h, p);
      WalkResolves(h, p);
    } else if n == 0 {
      WalkResolves(h, p);
    } else {
      forall i | 0 <= i < n - 1 ensures Hops(h, p[i]) && p[i + 1] == h.next[p[i]] {
        assert Hops(g, p[i]) && Hops(g, p[i + 1]);
      }
      assert Hops(g, p[n - 1]) && p[n] == g.next[p[n - 1]];
      assert Path(h, p[..n]);
      WalkResolves(h, p[..n]);
    }
  }
}
