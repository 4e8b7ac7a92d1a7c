/** Sorted text keys and their prefix lookup (search/index.py `_prefix_indices`). */
module SuffixTable {
  import opened Names

  type Pair = (string, nat)

  // ---- Lexicographic order ----

  predicate LexLe(a: string, b: string) {
    |a| == 0 || (|b| > 0 && (a[0] < b[0] || (a[0] == b[0] && LexLe(a[1..], b[1..]))))
  }

  lemma {:induction false} LexTotal(a: string, b: string)
    ensures LexLe(a, b) || LexLe(b, a)
  {
    if |a| > 0 && |b| > 0 { LexTotal(a[1..], b[1..]); }
  }

  lemma {:induction false} LexTrans(a: string, b: string, c: string)
    requires LexLe(a, b) && LexLe(b, c)
    ensures LexLe(a, c)
  {
    if |a| > 0 && a[0] == b[0] && b[0] == c[0] { LexTrans(a[1..], b[1..], c[1..]); }
  }

  // A prefix comes first.
  lemma {:induction false} PrefixLe(p: string, k: string)
    requires Begins(p, k)
    ensures LexLe(p, k)
  {
    if |p| > 0 {
      assert p[1..] <= k[1..];
      PrefixLe(p[1..], k[1..]);
    }
  }

  // Keys with a prefix are contiguous: nothing between it and them lacks it.
  lemma {:induction false} PrefixBlock(p: string, a: string, b: string)
    requires LexLe(p, a) && LexLe(a, b) && Begins(p, b)
    ensures Begins(p, a)
  {
    if |p| > 0 {
      assert p[0] == b[0] && p[1..] <= b[1..];
      PrefixBlock(p[1..], a[1..], b[1..]);
      assert p == [p[0]] + p[1..] && a == [a[0]] + a[1..];
    }
  }

  // ---- Sorting ----

  predicate PairLe(x: Pair, y: Pair) { LexLe(x.0, y.0) && (x.0 == y.0 ==> x.1 <= y.1) }

  function Insert(x: Pair, s: seq<Pair>): seq<Pair> {
    if |s| == 0 || PairLe(x, s[0]) then [x] + s else [s[0]] + Insert(x, s[1..])
  }

  function Sort(s: seq<Pair>): seq<Pair> {
    if |s| == 0 then [] else Insert(s[|s| - 1], Sort(s[..|s| - 1]))
  }

  ghost predicate KeySorted(s: seq<Pair>) { forall i, j | 0 <= i < j < |s| :: LexLe(s[i].0, s[j].0) }

  lemma {:induction false} InsertSorted(x: Pair, s: seq<Pair>)
    requires KeySorted(s)
    ensures KeySorted(Insert(x, s)) && multiset(Insert(x, s)) == multiset(s) + multiset{x}
  {
    if |s| == 0 {
    } else if PairLe(x, s[0]) {
      var r := [x] + s;
      forall i, j | 0 <= i < j < |r| ensures LexLe(r[i].0, r[j].0) {
        if i == 0 && j > 1 { LexTrans(x.0, s[0].0, s[j - 1].0); }
      }
    } else {
      LexTotal(x.0, s[0].0);
      InsertSorted(x, s[1..]);
      assert s == [s[0]] + s[1..];
      var rest := Insert(x, s[1..]);
      forall i | 0 <= i < |rest| ensures LexLe(s[0].0, rest[i].0) {
        assert rest[i] in multiset(rest);
        if rest[i] != x { assert rest[i] in s[1..]; }
      }
    }
  }

  lemma {:induction false} SortSorts(s: seq<Pair>)
    ensures KeySorted(Sort(s)) && multiset(Sort(s)) == multiset(s)
  {
    if |s| > 0 {
      SortSorts(s[..|s| - 1]);
      InsertSorted(s[|s| - 1], Sort(s[..|s| - 1]));
      assert s == s[..|s| - 1] + [s[|s| - 1]];
    }
  }

  // ---- Prefix lookup ----

  /** `bisect_left` splits a sorted table at the prefix. */
  method BisectLeft(pairs: seq<Pair>, prefix: string) returns (i: nat)
    requires KeySorted(pairs)
    ensures i <= |pairs|
    ensures forall k | 0 <= k < i :: !LexLe(prefix, pairs[k].0)
    ensures forall k | i <= k < |pairs| :: LexLe(prefix, pairs[k].0)
  {
    hide LexLe;
    var lo, hi := 0, |pairs|;
    while lo < hi
      invariant 0 <= lo <= hi <= |pairs|
      invariant forall k | 0 <= k < lo :: !LexLe(prefix, pairs[k].0)
      invariant forall k | hi <= k < |pairs| :: LexLe(prefix, pairs[k].0)
    {
      var mid := (lo + hi) / 2;
      if !LexLe(prefix, pairs[mid].0) {
        forall k | 0 <= k < mid ensures !LexLe(prefix, pairs[k].0) {
          if LexLe(prefix, pairs[k].0) { LexTrans(prefix, pairs[k].0, pairs[mid].0); }
        }
        lo := mid + 1;
      } else {
        forall k | mid < k < |pairs| ensures LexLe(prefix, pairs[k].0) { LexTrans(prefix, pairs[mid].0, pairs[k].0); }
        hi := mid;
      }
    }
    i := lo;
  }

  // The simple form: scan the whole table.
  function Matching(pairs: seq<Pair>, prefix: string): seq<nat> {
    if |pairs| == 0 then []
    else
      var rest := Matching(pairs[..|pairs| - 1], prefix);
      if Begins(prefix, pairs[|pairs| - 1].0) then rest + [pairs[|pairs| - 1].1] else rest
  }

  lemma {:induction false} NoneMatch(pairs: seq<Pair>, prefix: string, n: nat, m: nat)
    requires n <= m <= |pairs| && forall k | n <= k < m :: !Begins(prefix, pairs[k].0)
    ensures Matching(pairs[..m], prefix) == Matching(pairs[..n], prefix)
    decreases m
  {
    if n < m {
      assert pairs[..m][..m - 1] == pairs[..m - 1] && pairs[..m][m - 1] == pairs[m - 1];
      NoneMatch(pairs, prefix, n, m - 1);
    }
  }

  lemma MatchNext(pairs: seq<Pair>, prefix: string, n: nat)
    requires n < |pairs| && Begins(prefix, pairs[n].0)
    ensures Matching(pairs[..n + 1], prefix) == Matching(pairs[..n], prefix) + [pairs[n].1]
  {
    assert pairs[..n + 1][..n] == pairs[..n] && pairs[..n + 1][n] == pairs[n];
  }

  /** On a sorted table the bisected scan returns what a scan of the whole table does. */
  method PrefixIndices(pairs: seq<Pair>, prefix: string) returns (out: seq<nat>)
    requires KeySorted(pairs)
    ensures out == if prefix == "" then [] else Matching(pairs, prefix)
  {
    hide LexLe; hide Begins; hide Matching;
    if prefix == "" || pairs == [] {
      EmptyMatch(prefix);
      return [];
    }
    var i := BisectLeft(pairs, prefix);
    forall k | 0 <= k < i ensures !Begins(prefix, pairs[k].0) { if Begins(prefix, pairs[k].0) { PrefixLe(prefix, pairs[k].0); } }
    EmptyMatch(prefix);
    NoneMatch(pairs, prefix, 0, i);
    assert pairs[..0] == [];
    out := [];
    ghost var first := i;
    while i < |pairs|
      invariant first <= i <= |pairs|
      invariant out == Matching(pairs[..i], prefix)
    {
      var (key, idx) := pairs[i];
      if !Begins(prefix, key) {
        forall k | i <= k < |pairs| ensures !Begins(prefix, pairs[k].0) {
          if k > i && Begins(prefix, pairs[k].0) { PrefixBlock(prefix, pairs[i].0, pairs[k].0); }
        }
        break;
      }
      MatchNext(pairs, prefix, i);
      out := out + [idx];
      i := i + 1;
    }
    NoneMatch(pairs, prefix, i, |pairs|);
    assert pairs[..|pairs|] == pairs;
  }

  lemma EmptyMatch(prefix: string)
    ensures Matching([], prefix) == []
  {
  }

  lemma {:induction false} MatchingFinds(pairs: seq<Pair>, prefix: string, idx: nat)
    ensures idx in Matching(pairs, prefix) <==> exists k | 0 <= k < |pairs| :: pairs[k].1 == idx && Begins(prefix, pairs[k].0)
  {
    if |pairs| > 0 {
      var n := |pairs| - 1;
      MatchingFinds(pairs[..n], prefix, idx);
      if exists k | 0 <= k < |pairs| :: pairs[k].1 == idx && Begins(prefix, pairs[k].0) {
        var k :| 0 <= k < |pairs| && pairs[k].1 == idx && Begins(prefix, pairs[k].0);
        if k < n { assert pairs[..n][k].1 == idx; }
      }
    }
  }
}
