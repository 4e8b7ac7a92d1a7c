/** Ranked hits: a stable sort by falling score, shorter names first. */
module Ranking {
  datatype Hit = Hit(idx: nat, score: int, length: nat)

  predicate Before(x: Hit, y: Hit) { x.score > y.score || (x.score == y.score && x.length <= y.length) }

  function Place(h: Hit, s: seq<Hit>): seq<Hit> {
    if |s| == 0 then [h]
    else if Before(s[|s| - 1], h) then s + [h]
    else Place(h, s[..|s| - 1]) + [s[|s| - 1]]
  }

  function Rank(s: seq<Hit>): seq<Hit> {
    if |s| == 0 then [] else Place(s[|s| - 1], Rank(s[..|s| - 1]))
  }

  ghost predicate Ordered(s: seq<Hit>) { forall i, j | 0 <= i < j < |s| :: Before(s[i], s[j]) }

  lemma {:induction false} PlaceHolds(h: Hit, s: seq<Hit>)
    ensures multiset(Place(h, s)) == multiset(s) + multiset{h}
  {
    if |s| > 0 {
      var n := |s| - 1;
      assert s == s[..n] + [s[n]];
      if !Before(s[n], h) { PlaceHolds(h, s[..n]); }
    }
  }

  lemma Placed(h: Hit, s: seq<Hit>, i: nat)
    requires i < |Place(h, s)|
    ensures Place(h, s)[i] == h || Place(h, s)[i] in s
  {
    PlaceHolds(h, s);
    assert Place(h, s)[i] in multiset(Place(h, s));
  }

  lemma {:induction false} PlaceOrders(h: Hit, s: seq<Hit>)
    requires Ordered(s)
    ensures Ordered(Place(h, s)) && multiset(Place(h, s)) == multiset(s) + multiset{h}
  {
    PlaceHolds(h, s);
    if |s| > 0 {
      var n := |s| - 1;
      if Before(s[n], h) {
        forall i | 0 <= i < |s| ensures Before(s[i], h) { assert i < n ==> Before(s[i], s[n]); }
      } else {
        PlaceOrders(h, s[..n]);
        var rest := Place(h, s[..n]);
        forall i | 0 <= i < |rest| ensures Before(rest[i], s[n]) { Placed(h, s[..n], i); }
      }
    }
  }

  lemma {:induction false} RankOrders(s: seq<Hit>)
    ensures Ordered(Rank(s)) && multiset(Rank(s)) == multiset(s) && |Rank(s)| == |s|
  {
    if |s| > 0 {
      RankOrders(s[..|s| - 1]);
      PlaceOrders(s[|s| - 1], Rank(s[..|s| - 1]));
      assert s == s[..|s| - 1] + [s[|s| - 1]];
      assert |multiset(Rank(s))| == |multiset(s)|;
    }
  }

  // ---- Counting hits above a mark ----

  // Hits with at least a score, or that rank no later than a given hit.
  datatype Mark = AtLeast(score: int) | Ahead(of: Hit)

  predicate Meets(h: Hit, m: Mark) {
    match m
    case AtLeast(x) => h.score >= x
    case Ahead(t) => Before(h, t)
  }

  function Count(s: seq<Hit>, m: Mark): nat {
    if |s| == 0 then 0 else Count(s[..|s| - 1], m) + (if Meets(s[|s| - 1], m) then 1 else 0)
  }

  lemma CountPush(s: seq<Hit>, h: Hit, m: Mark)
    ensures Count(s + [h], m) == Count(s, m) + (if Meets(h, m) then 1 else 0)
  {
    assert (s + [h])[..|s|] == s;
  }

  lemma {:induction false} CountPlace(h: Hit, s: seq<Hit>, m: Mark)
    ensures Count(Place(h, s), m) == Count(s, m) + (if Meets(h, m) then 1 else 0)
  {
    hide Meets;
    var n := |s| - 1;
    if |s| == 0 {
      assert [h][..0] == [];
    } else if Before(s[n], h) {
      CountPush(s, h, m);
    } else {
      CountPlace(h, s[..n], m);
      CountPush(Place(h, s[..n]), s[n], m);
    }
  }

  lemma {:induction false} CountRank(s: seq<Hit>, m: Mark)
    ensures Count(Rank(s), m) == Count(s, m)
  {
    if |s| > 0 {
      CountRank(s[..|s| - 1], m);
      CountPlace(s[|s| - 1], Rank(s[..|s| - 1]), m);
    }
  }

  lemma {:induction false} CountSize(s: seq<Hit>, m: Mark)
    ensures Count(s, m) <= |s|
    ensures (forall i | 0 <= i < |s| :: Meets(s[i], m)) ==> Count(s, m) == |s|
  {
    hide Meets;
    if |s| > 0 { CountSize(s[..|s| - 1], m); }
  }

  // Whatever ranks before a hit meets the marks it meets.
  lemma MeetsBefore(x: Hit, y: Hit, m: Mark)
    requires Before(x, y) && Meets(y, m)
    ensures Meets(x, m)
  {
  }

  // In ranked order position i meets a mark exactly when more than i hits do.
  lemma {:induction false} CountAt(s: seq<Hit>, m: Mark, i: nat)
    requires Ordered(s) && i < |s|
    ensures Count(s, m) > i <==> Meets(s[i], m)
  {
    hide Meets; hide Before;
    var n := |s| - 1;
    if i < n {
      CountAt(s[..n], m, i);
      if !Meets(s[i], m) && Meets(s[n], m) { MeetsBefore(s[i], s[n], m); }
    } else {
      CountSize(s[..n], m);
      if Meets(s[n], m) { forall k | 0 <= k < n ensures Meets(s[..n][k], m) { MeetsBefore(s[k], s[n], m); } }
    }
  }

  function Least(a: nat, b: nat): nat { if a < b then a else b }

  function Top(s: seq<Hit>, limit: nat): seq<Hit> { Rank(s)[..Least(limit, |Rank(s)|)] }

  lemma Reach(s: seq<Hit>, m: Mark, i: nat)
    requires i < |s|
    ensures |Rank(s)| == |s| && (Count(s, m) > i <==> Meets(Rank(s)[i], m))
  {
    RankOrders(s);
    CountRank(s, m);
    CountAt(Rank(s), m, i);
  }

  // The same score and the same length: nothing the ranking looks at differs.
  predicate Level(x: Hit, y: Hit) { x.score == y.score && x.length == y.length }

  lemma BothBefore(x: Hit, y: Hit)
    ensures Level(x, y) <==> Before(x, y) && Before(y, x)
  {
  }

  /** Two hit lists that agree on how many hits rank with their i-th ones have level i-th hits. */
  lemma RanksAgree(a: seq<Hit>, b: seq<Hit>, i: nat)
    requires i < |a| && i < |b| && |Rank(a)| == |a| && |Rank(b)| == |b|
    requires Count(a, Ahead(Rank(a)[i])) == Count(b, Ahead(Rank(a)[i]))
    requires Count(a, Ahead(Rank(b)[i])) == Count(b, Ahead(Rank(b)[i]))
    ensures Level(Rank(a)[i], Rank(b)[i])
  {
    hide Rank; hide Count;
    var x, y := Rank(a)[i], Rank(b)[i];
    Reach(a, Ahead(x), i);
    Reach(b, Ahead(x), i);
    Reach(a, Ahead(y), i);
    Reach(b, Ahead(y), i);
    BothBefore(x, y);
  }

  ghost predicate SameRanks(a: seq<Hit>, b: seq<Hit>) { |a| == |b| && forall i | 0 <= i < |a| :: Level(a[i], b[i]) }

  /** Equal counts everywhere: the same top ranks. */
  lemma TopSame(a: seq<Hit>, b: seq<Hit>, limit: nat)
    requires |a| == |b| && forall t: Hit :: Count(a, Ahead(t)) == Count(b, Ahead(t))
    ensures SameRanks(Top(a, limit), Top(b, limit))
  {
    hide Rank; hide Count; hide Before; hide Level;
    RankOrders(a);
    RankOrders(b);
    forall i | 0 <= i < |Top(a, limit)| ensures Level(Top(a, limit)[i], Top(b, limit)[i]) { RanksAgree(a, b, i); }
  }

  /** Equal counts from a floor that `limit` hits of both reach: the same top ranks, whatever lies below. */
  lemma TopStrong(a: seq<Hit>, b: seq<Hit>, floor: int, limit: nat)
    requires forall t: Hit | t.score >= floor :: Count(a, Ahead(t)) == Count(b, Ahead(t))
    requires Count(a, AtLeast(floor)) >= limit && Count(b, AtLeast(floor)) >= limit
    ensures SameRanks(Top(a, limit), Top(b, limit))
  {
    hide Rank; hide Count; hide Before; hide Level;
    RankOrders(a);
    RankOrders(b);
    CountSize(a, AtLeast(floor));
    CountSize(b, AtLeast(floor));
    forall i | 0 <= i < |Top(a, limit)| ensures Level(Top(a, limit)[i], Top(b, limit)[i]) {
      Reach(a, AtLeast(floor), i);
      Reach(b, AtLeast(floor), i);
      RanksAgree(a, b, i);
    }
  }

  // ---- What is returned ----

  ghost predicate Ascending(s: seq<Hit>) { forall i, j | 0 <= i < j < |s| :: s[i].idx < s[j].idx }

  // Equally ranked hits appear in the order of their declarations.
  ghost predicate Stable(s: seq<Hit>) {
    forall i, j | 0 <= i < j < |s| && s[i].score == s[j].score && s[i].length == s[j].length :: s[i].idx < s[j].idx
  }

  lemma {:induction false} PlaceStable(h: Hit, s: seq<Hit>)
    requires Ordered(s) && Stable(s) && forall i | 0 <= i < |s| :: s[i].idx < h.idx
    ensures Stable(Place(h, s))
  {
    if |s| > 0 {
      var n := |s| - 1;
      if !Before(s[n], h) {
        PlaceStable(h, s[..n]);
        var rest := Place(h, s[..n]);
        hide Ordered; hide Place;
        forall i | 0 <= i < |rest| && rest[i].score == s[n].score && rest[i].length == s[n].length ensures rest[i].idx < s[n].idx {
          Placed(h, s[..n], i);
        }
      }
    }
  }

  lemma {:induction false} RankStable(s: seq<Hit>)
    requires Ascending(s)
    ensures Stable(Rank(s))
  {
    if |s| > 0 {
      var n := |s| - 1;
      RankStable(s[..n]);
      RankOrders(s[..n]);
      var rest := Rank(s[..n]);
      forall i | 0 <= i < |rest| ensures rest[i].idx < s[n].idx {
        assert rest[i] in multiset(rest);
        assert rest[i] in s[..n];
      }
      PlaceStable(s[n], rest);
    }
  }

  // Some of the hits, by falling score and shorter first; a hit that is left
  // out ranks no earlier than any of them.
  ghost predicate Cut(s: seq<Hit>, t: seq<Hit>) {
    && (forall i, j | 0 <= i < j < |t| :: t[i].score > t[j].score || (t[i].score == t[j].score && t[i].length <= t[j].length))
    && multiset(t) <= multiset(s)
    && (forall h, i | h in s && multiset(t)[h] < multiset(s)[h] && 0 <= i < |t| ::
          t[i].score > h.score || (t[i].score == h.score && t[i].length <= h.length))
  }

  /**
    The first `limit` hits by falling score, shorter ones first and otherwise
    in the order found; a hit that is left out ranks no earlier than any returned.
   */
  lemma TopRanks(s: seq<Hit>, limit: nat)
    ensures var t := Top(s, limit);
            && |t| == (if limit < |s| then limit else |s|)
            && Cut(s, t) && (Ascending(s) ==> Stable(t))
  {
    hide Rank; hide Ordered; hide Ascending; hide Stable; hide Cut;
    RankOrders(s);
    var n := Least(limit, |Rank(s)|);
    CutParts(s, Rank(s), n);
    if Ascending(s) {
      RankStable(s);
      StablePrefix(Rank(s), n);
    }
  }

  lemma StablePrefix(s: seq<Hit>, n: nat)
    requires Stable(s) && n <= |s|
    ensures Stable(s[..n])
  {
  }

  lemma LeftOut(r: seq<Hit>, n: nat, h: Hit) returns (k: nat)
    requires n <= |r| && multiset(r[..n])[h] < multiset(r)[h]
    ensures n <= k < |r| && r[k] == h
  {
    assert r == r[..n] + r[n..];
    assert h in r[n..];
    var i :| 0 <= i < |r[n..]| && r[n..][i] == h;
    k := n + i;
  }

  lemma Prefix(r: seq<Hit>, n: nat)
    requires n <= |r|
    ensures multiset(r[..n]) <= multiset(r)
  {
    assert r == r[..n] + r[n..];
  }

  lemma CutParts(s: seq<Hit>, r: seq<Hit>, n: nat)
    requires Ordered(r) && multiset(r) == multiset(s) && n <= |r|
    ensures Cut(s, r[..n])
  {
    Prefix(r, n);
    forall h, i | h in s && multiset(r[..n])[h] < multiset(s)[h] && 0 <= i < n ensures Before(r[i], h) {
      var k := LeftOut(r, n, h);
    }
  }
}
