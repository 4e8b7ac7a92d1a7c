/**
  Searching declarations by name: dictionaries and a sorted suffix table
  against a scan of every declaration (search/index.py `_ensure_name_index`,
  `search_name`).
 */
module NameSearch {
  import opened Wrappers
  import opened Sequences
  import opened Text
  import opened Names
  import opened SuffixTable
  import opened Ranking

  datatype Declaration = Declaration(name: string, library: nat)

  // ---- The simple form: score every declaration ----

  function Full(d: Declaration): string { Lower(d.name) }

  predicate Listed(d: Declaration, q: string, library: Option<nat>) {
    Score(q, Full(d)) > 0 && (library.None? || d.library == library.value)
  }

  function HitOf(all: seq<Declaration>, q: string, idx: nat): Hit
    requires idx < |all|
  {
    Hit(idx, Score(q, Full(all[idx])), |all[idx].name|)
  }

  // The hits among the first n declarations; `narrow` keeps those the suffix table can find.
  ghost function Scan(all: seq<Declaration>, q: string, library: Option<nat>, narrow: bool, n: nat): seq<Hit>
    requires n <= |all|
  {
    if n == 0 then []
    else
      var rest := Scan(all, q, library, narrow, n - 1);
      if Listed(all[n - 1], q, library) && (narrow ==> Findable(q, Full(all[n - 1]))) then rest + [HitOf(all, q, n - 1)] else rest
  }

  ghost predicate Wanted(all: seq<Declaration>, q: string, library: Option<nat>, narrow: bool, idx: nat) {
    idx < |all| && Listed(all[idx], q, library) && (narrow ==> Findable(q, Full(all[idx])))
  }

  // ---- The dictionary of best scores ----

  // A Python dictionary: keys in insertion order.
  datatype Board = Board(keys: seq<nat>, best: map<nat, int>)

  // `consider`.
  function Consider(b: Board, all: seq<Declaration>, library: Option<nat>, idx: nat, score: int): Board
    requires idx < |all|
  {
    if score <= 0 || (library.Some? && all[idx].library != library.value) then b
    else if idx in b.best then (if score > b.best[idx] then Board(b.keys, b.best[idx := score]) else b)
    else Board(b.keys + [idx], b.best[idx := score])
  }

  // Every entry carries the scorer's score of a wanted declaration.
  ghost predicate Fair(b: Board, all: seq<Declaration>, q: string, library: Option<nat>) {
    && Distinct(b.keys) && Elements(b.keys) == b.best.Keys
    && forall idx | idx in b.best :: Wanted(all, q, library, false, idx) && b.best[idx] == Score(q, Full(all[idx]))
  }

  lemma ConsiderFair(b: Board, all: seq<Declaration>, q: string, library: Option<nat>, idx: nat)
    requires Fair(b, all, q, library) && idx < |all|
    ensures var c := Consider(b, all, library, idx, Score(q, Full(all[idx])));
            && Fair(c, all, q, library)
            && c.best.Keys == b.best.Keys + (if Listed(all[idx], q, library) then {idx} else {})
  {
    hide Score; hide Lower; hide Findable;
    if Listed(all[idx], q, library) && idx !in b.best {
      assert idx !in Elements(b.keys);
      DistinctPush(b.keys, idx);
      assert Elements(b.keys + [idx]) == Elements(b.keys) + {idx};
    }
  }

  // ---- The index ----

  // What a dictionary from text to declarations must list.
  ghost predicate Lists(dict: map<string, seq<nat>>, all: seq<Declaration>, segments: bool, n: nat) {
    forall s: string, idx: nat ::
      (s in dict && idx in dict[s]) <==>
        (idx < n && idx < |all| && s == if segments then Segment(Full(all[idx])) else Full(all[idx]))
  }

  function Filed(dict: map<string, seq<nat>>, s: string, idx: nat): map<string, seq<nat>> {
    dict[s := (if s in dict then dict[s] else []) + [idx]]
  }

  lemma FiledLists(dict: map<string, seq<nat>>, all: seq<Declaration>, segments: bool, n: nat)
    requires Lists(dict, all, segments, n) && n < |all|
    ensures Lists(Filed(dict, if segments then Segment(Full(all[n])) else Full(all[n]), n), all, segments, n + 1)
  {
    hide Lower; hide Segment;
  }

  lemma FiledExact(dict: map<string, seq<nat>>, all: seq<Declaration>, segments: bool, q: string, idx: nat)
    requires Lists(dict, all, segments, |all|) && q in dict && idx in dict[q] && q != ""
    ensures idx < |all| && Score(q, Full(all[idx])) == EXACT && Findable(q, Full(all[idx]))
  {
    hide Score; hide Lower; hide Findable;
    ExactScore(q, Full(all[idx]));
  }

  // The table holds exactly the dot-suffixes of the first n names.
  ghost predicate Tabled(table: seq<Pair>, all: seq<Declaration>, n: nat) {
    forall t: string, idx: nat :: (t, idx) in table <==> idx < n && idx < |all| && DotSuffix(Full(all[idx]), t)
  }

  // The suffixes after the dots from `start` on.
  ghost predicate TailOf(name: string, start: nat, t: string) { exists d: nat :: start <= d && AfterDot(name, d, t) }

  method NameSuffixes(full: string, idx: nat) returns (table: seq<Pair>)
    ensures forall t: string, i: nat :: (t, i) in table <==> i == idx && DotSuffix(full, t)
  {
    hide FindDot;
    table := [(full, idx)];
    var start := 0;
    while true
      invariant 0 <= start <= |full|
      invariant forall t: string, i: nat :: (t, i) in table ==> i == idx && DotSuffix(full, t)
      invariant forall t: string :: DotSuffix(full, t) && (t, idx) !in table ==> TailOf(full, start, t)
      decreases |full| - start
    {
      var dot := FindDot(full, start);
      if dot < 0 {
        forall t | TailOf(full, start, t) ensures false { NoTail(full, start, t); }
        break;
      }
      var suffix := full[dot + 1..];
      assert AfterDot(full, dot, suffix);
      forall t | TailOf(full, start, t) && t != suffix ensures TailOf(full, dot + 1, t) { NextTail(full, start, t); }
      table := table + [(suffix, idx)];
      start := dot + 1;
    }
  }

  lemma NoTail(name: string, start: nat, t: string)
    requires start <= |name| && TailOf(name, start, t)
    ensures FindDot(name, start) >= 0
  {
    var d: nat :| start <= d && AfterDot(name, d, t);
    assert name[d] == '.';
  }

  lemma NextTail(name: string, start: nat, t: string)
    requires start <= |name| && TailOf(name, start, t) && FindDot(name, start) >= 0 && t != name[FindDot(name, start) + 1..]
    ensures TailOf(name, FindDot(name, start) + 1, t)
  {
    var d: nat :| start <= d && AfterDot(name, d, t);
    assert name[d] == '.';
  }

  lemma TabledMore(table: seq<Pair>, more: seq<Pair>, all: seq<Declaration>, n: nat)
    requires Tabled(table, all, n) && n < |all|
    requires forall t: string, i: nat :: (t, i) in more <==> i == n && DotSuffix(Full(all[n]), t)
    ensures Tabled(table + more, all, n + 1)
  {
    hide DotSuffix; hide Lower;
  }

  lemma TabledSorted(table: seq<Pair>, all: seq<Declaration>, n: nat)
    requires Tabled(table, all, n)
    ensures Tabled(Sort(table), all, n) && KeySorted(Sort(table))
  {
    hide DotSuffix; hide Sort;
    SortSorts(table);
    forall t: string, i: nat ensures (t, i) in Sort(table) <==> (t, i) in table {
      assert (t, i) in multiset(Sort(table)) <==> (t, i) in multiset(table);
    }
  }

  // The table finds exactly the declarations with a dot-suffix that starts with the query.
  lemma TableFinds(table: seq<Pair>, all: seq<Declaration>, q: string, idx: nat)
    requires Tabled(table, all, |all|)
    ensures idx in Matching(table, q) <==> idx < |all| && Findable(q, Full(all[idx]))
  {
    hide DotSuffix; hide Matching; hide Lower; hide Begins;
    MatchingFinds(table, q, idx);
    if idx < |all| && Findable(q, Full(all[idx])) {
      var t :| DotSuffix(Full(all[idx]), t) && Begins(q, t);
      assert (t, idx) in table;
      var k :| 0 <= k < |table| && table[k] == (t, idx);
      assert table[k].1 == idx;
    }
    if idx in Matching(table, q) {
      var k :| 0 <= k < |table| && table[k].1 == idx && Begins(q, table[k].0);
      assert (table[k].0, idx) in table;
    }
  }

  // ---- Boards and scans hold the same hits ----

  function Hits(b: Board, all: seq<Declaration>, n: nat): seq<Hit>
    requires n <= |b.keys| && forall i | 0 <= i < n :: b.keys[i] in b.best && b.keys[i] < |all|
  {
    if n == 0 then [] else Hits(b, all, n - 1) + [Hit(b.keys[n - 1], b.best[b.keys[n - 1]], |all[b.keys[n - 1]].name|)]
  }

  ghost function Reaching(all: seq<Declaration>, q: string, keys: set<nat>, m: Mark): set<nat> {
    set k | k in keys && k < |all| && Meets(HitOf(all, q, k), m)
  }

  lemma ReachingAdd(all: seq<Declaration>, q: string, keys: set<nat>, k: nat, m: Mark)
    requires k !in keys && k < |all|
    ensures |Reaching(all, q, keys + {k}, m)| == |Reaching(all, q, keys, m)| + (if Meets(HitOf(all, q, k), m) then 1 else 0)
  {
    hide HitOf; hide Meets;
    if Meets(HitOf(all, q, k), m) { assert Reaching(all, q, keys + {k}, m) == Reaching(all, q, keys, m) + {k}; }
    else { assert Reaching(all, q, keys + {k}, m) == Reaching(all, q, keys, m); }
  }

  lemma FairKeys(b: Board, all: seq<Declaration>, q: string, library: Option<nat>)
    requires Fair(b, all, q, library)
    ensures forall i | 0 <= i < |b.keys| :: b.keys[i] in b.best && b.keys[i] < |all|
  {
    forall i | 0 <= i < |b.keys| ensures b.keys[i] in b.best { assert b.keys[i] in Elements(b.keys); }
  }

  lemma {:induction false} BoardCount(b: Board, all: seq<Declaration>, q: string, library: Option<nat>, m: Mark, n: nat)
    requires Fair(b, all, q, library) && n <= |b.keys|
    requires forall i | 0 <= i < |b.keys| :: b.keys[i] in b.best && b.keys[i] < |all|
    ensures |Hits(b, all, n)| == n
    ensures Count(Hits(b, all, n), m) == |Reaching(all, q, Elements(b.keys[..n]), m)|
  {
    hide Score; hide Lower; hide Wanted; hide Count; hide Reaching; hide Meets;
    if n == 0 {
      Nothing(all, q, m);
    } else {
      BoardCount(b, all, q, library, m, n - 1);
      var k := b.keys[n - 1];
      ElementsNext(b.keys, n - 1);
      assert k !in Elements(b.keys[..n - 1]);
      ReachingAdd(all, q, Elements(b.keys[..n - 1]), k, m);
      CountPush(Hits(b, all, n - 1), Hit(k, b.best[k], |all[k].name|), m);
    }
  }

  lemma Nothing(all: seq<Declaration>, q: string, m: Mark)
    ensures Reaching(all, q, Elements([]), m) == {} && Count([], m) == 0
  {
  }

  ghost function WantedSet(all: seq<Declaration>, q: string, library: Option<nat>, narrow: bool, n: nat): set<nat> {
    set k | 0 <= k < n && Wanted(all, q, library, narrow, k)
  }

  lemma {:induction false} ScanCount(all: seq<Declaration>, q: string, library: Option<nat>, narrow: bool, m: Mark, n: nat)
    requires n <= |all|
    ensures Count(Scan(all, q, library, narrow, n), m) == |Reaching(all, q, WantedSet(all, q, library, narrow, n), m)|
    ensures |Scan(all, q, library, narrow, n)| == |WantedSet(all, q, library, narrow, n)|
  {
    hide Score; hide Lower; hide Findable; hide Listed; hide Count; hide Reaching; hide Meets;
    if n == 0 {
      Nothing(all, q, m);
      assert WantedSet(all, q, library, narrow, 0) == Elements([]);
    } else {
      ScanCount(all, q, library, narrow, m, n - 1);
      var k := n - 1;
      var before, after := WantedSet(all, q, library, narrow, k), WantedSet(all, q, library, narrow, n);
      if Wanted(all, q, library, narrow, k) {
        assert after == before + {k};
        ReachingAdd(all, q, before, k, m);
        CountPush(Scan(all, q, library, narrow, k), HitOf(all, q, k), m);
      } else {
        assert after == before;
      }
    }
  }

  // A board that lists what a scan does has its counts.
  lemma BoardScan(b: Board, all: seq<Declaration>, q: string, library: Option<nat>, narrow: bool, m: Mark)
    requires Fair(b, all, q, library) && b.best.Keys == WantedSet(all, q, library, narrow, |all|)
    requires forall i | 0 <= i < |b.keys| :: b.keys[i] in b.best && b.keys[i] < |all|
    ensures Count(Hits(b, all, |b.keys|), m) == Count(Scan(all, q, library, narrow, |all|), m)
    ensures |Hits(b, all, |b.keys|)| == |Scan(all, q, library, narrow, |all|)|
  {
    hide Score; hide Lower; hide Findable; hide Listed; hide Wanted; hide Reaching; hide Count; hide Hits; hide Scan;
    assert b.keys[..|b.keys|] == b.keys;
    BoardCount(b, all, q, library, m, |b.keys|);
    ScanCount(all, q, library, narrow, m, |all|);
    DistinctSize(b.keys);
  }

  // What the scan misses is weak.
  lemma NarrowStrong(all: seq<Declaration>, q: string, library: Option<nat>, m: Mark)
    requires if m.AtLeast? then m.score > 1200 else m.of.score > 1200
    ensures Count(Scan(all, q, library, true, |all|), m) == Count(Scan(all, q, library, false, |all|), m)
  {
    hide Score; hide Lower; hide Findable; hide Count; hide Scan;
    ScanCount(all, q, library, true, m, |all|);
    ScanCount(all, q, library, false, m, |all|);
    var some, whole := WantedSet(all, q, library, true, |all|), WantedSet(all, q, library, false, |all|);
    forall k | k in Reaching(all, q, whole, m) ensures k in Reaching(all, q, some, m) {
      if !Findable(q, Full(all[k])) { UnfindableWeak(q, Full(all[k])); }
    }
    assert Reaching(all, q, some, m) == Reaching(all, q, whole, m);
  }

  // ---- The search ----

  ghost predicate Sound(all: seq<Declaration>, q: string, library: Option<nat>, hits: seq<Hit>) {
    && (forall i | 0 <= i < |hits| ::
          Wanted(all, q, library, false, hits[i].idx) && hits[i] == HitOf(all, q, hits[i].idx))
    && (forall h | h in hits :: multiset(hits)[h] == 1)
  }

  // The full scan has an exact match, or enough strong ones: the fallback is not paid for.
  ghost predicate Exact(full: seq<Hit>) { Count(full, AtLeast(EXACT)) > 0 }
  ghost predicate Enough(full: seq<Hit>, limit: nat) { Count(full, AtLeast(STRONG)) >= (if limit < 1 then 1 else limit) }

  // The hits rank like the top of the full scan, by score and length, unless an
  // exact match cut the fallback short of `limit` strong hits.
  ghost predicate Answers(all: seq<Declaration>, q: string, limit: nat, library: Option<nat>, hits: seq<Hit>) {
    var full, narrow := Scan(all, q, library, false, |all|), Scan(all, q, library, true, |all|);
    && Sound(all, q, library, hits)
    && (!Exact(full) || Enough(full, limit) ==> SameRanks(hits, Top(full, limit)))
    && (Exact(full) ==> SameRanks(hits, Top(narrow, limit)))
  }

  method ConsiderAll(b0: Board, all: seq<Declaration>, q: string, library: Option<nat>, list: seq<nat>, exact: bool) returns (b: Board)
    requires Fair(b0, all, q, library) && Lower(q) == q
    requires forall idx | idx in list :: idx < |all| && (exact ==> Score(q, Full(all[idx])) == EXACT)
    ensures Fair(b, all, q, library)
    ensures b.best.Keys == b0.best.Keys + set idx | idx in list && idx < |all| && Listed(all[idx], q, library)
  {
    hide Fair; hide Score; hide Lower; hide Listed;
    b := b0;
    for i := 0 to |list|
      invariant Fair(b, all, q, library)
      invariant b.best.Keys == b0.best.Keys + set idx | idx in list[..i] && idx < |all| && Listed(all[idx], q, library)
    {
      var idx := list[i];
      assert idx in list;
      var score := EXACT;
      if !exact { score := NameScore(q, all[idx].name); }
      ConsiderFair(b, all, q, library, idx);
      assert list[..i + 1] == list[..i] + [idx];
      b := Consider(b, all, library, idx, score);
    }
    assert list[..|list|] == list;
  }

  // `any` and `sum` over the dictionary's values.
  method CountReaching(b: Board, all: seq<Declaration>, x: int) returns (n: nat)
    requires forall i | 0 <= i < |b.keys| :: b.keys[i] in b.best && b.keys[i] < |all|
    ensures n == Count(Hits(b, all, |b.keys|), AtLeast(x))
  {
    n := 0;
    for i := 0 to |b.keys|
      invariant n == Count(Hits(b, all, i), AtLeast(x))
    {
      CountPush(Hits(b, all, i), Hit(b.keys[i], b.best[b.keys[i]], |all[b.keys[i]].name|), AtLeast(x));
      if b.best[b.keys[i]] >= x { n := n + 1; }
    }
  }

  method Fallback(b0: Board, all: seq<Declaration>, q: string, library: Option<nat>) returns (b: Board)
    requires Fair(b0, all, q, library) && Lower(q) == q
    ensures Fair(b, all, q, library) && b.best.Keys == WantedSet(all, q, library, false, |all|)
  {
    hide Fair; hide Score; hide Lower; hide Findable;
    b := b0;
    for idx := 0 to |all|
      invariant Fair(b, all, q, library)
      invariant b.best.Keys == b0.best.Keys + WantedSet(all, q, library, false, idx)
    {
      assert WantedSet(all, q, library, false, idx + 1)
             == WantedSet(all, q, library, false, idx) + if Listed(all[idx], q, library) then {idx} else {};
      if idx in b.best {
        InBoard(b, all, q, library, idx);
      } else if library.Some? && all[idx].library != library.value {
      } else if Holds(Full(all[idx]), q) {
        var score := NameScore(q, all[idx].name);
        ConsiderFair(b, all, q, library, idx);
        b := Consider(b, all, library, idx, score);
      } else {
        Absent(q, Full(all[idx]));
      }
    }
    BoardWanted(b0, all, q, library);
  }

  lemma InBoard(b: Board, all: seq<Declaration>, q: string, library: Option<nat>, idx: nat)
    requires Fair(b, all, q, library) && idx in b.best
    ensures idx < |all| && Listed(all[idx], q, library)
  {
  }

  lemma Absent(q: string, name: string)
    requires !Holds(name, q)
    ensures Score(q, name) <= 0
  {
    HoldsContains(name, q);
    if Score(q, name) > 0 { ScoredContained(q, name); }
  }

  lemma BoardWanted(b: Board, all: seq<Declaration>, q: string, library: Option<nat>)
    requires Fair(b, all, q, library)
    ensures b.best.Keys <= WantedSet(all, q, library, false, |all|)
  {
  }

  lemma {:induction false} HitsSound(b: Board, all: seq<Declaration>, q: string, library: Option<nat>, n: nat)
    requires Fair(b, all, q, library) && n <= |b.keys|
    requires forall i | 0 <= i < |b.keys| :: b.keys[i] in b.best && b.keys[i] < |all|
    ensures |Hits(b, all, n)| == n && Sound(all, q, library, Hits(b, all, n))
    ensures forall h | h in Hits(b, all, n) :: h.idx in b.keys[..n]
  {
    hide Listed; hide Findable; hide Sound; hide Score; hide Lower;
    if n == 0 {
      NoHits(all, q, library);
    } else {
      HitsSound(b, all, q, library, n - 1);
      var k := b.keys[n - 1];
      assert b.keys[..n] == b.keys[..n - 1] + [k] && k !in b.keys[..n - 1];
      SoundPush(all, q, library, Hits(b, all, n - 1), HitOf(all, q, k));
    }
  }

  lemma NoHits(all: seq<Declaration>, q: string, library: Option<nat>)
    ensures Sound(all, q, library, [])
  {
  }

  lemma SoundPush(all: seq<Declaration>, q: string, library: Option<nat>, s: seq<Hit>, h: Hit)
    requires Sound(all, q, library, s) && Wanted(all, q, library, false, h.idx) && h == HitOf(all, q, h.idx) && h !in s
    ensures Sound(all, q, library, s + [h])
  {
    hide Listed; hide Findable; hide HitOf;
    forall g | g in s + [h] ensures multiset(s + [h])[g] == 1 {
      assert multiset(s + [h])[g] == multiset(s)[g] + multiset([h])[g];
    }
  }

  // Ranking and truncating keep hits sound.
  lemma TopSound(all: seq<Declaration>, q: string, library: Option<nat>, s: seq<Hit>, limit: nat)
    requires Sound(all, q, library, s)
    ensures Sound(all, q, library, Top(s, limit))
  {
    hide Listed; hide Findable; hide HitOf; hide Rank;
    RankOrders(s);
    var r, n := Rank(s), |Top(s, limit)|;
    assert r == r[..n] + r[n..];
    forall h | h in Top(s, limit) ensures h in s && multiset(Top(s, limit))[h] == 1 {
      assert h in multiset(r);
      assert multiset(r)[h] == multiset(r[..n])[h] + multiset(r[n..])[h];
    }
    forall i | 0 <= i < n ensures Wanted(all, q, library, false, Top(s, limit)[i].idx) && Top(s, limit)[i] == HitOf(all, q, Top(s, limit)[i].idx) {
      assert Top(s, limit)[i] in s;
    }
  }

  // ---- Putting the answer together ----

  lemma FullAnswer(b: Board, all: seq<Declaration>, q: string, limit: nat, library: Option<nat>)
    requires Fair(b, all, q, library) && b.best.Keys == WantedSet(all, q, library, false, |all|)
    requires forall i | 0 <= i < |b.keys| :: b.keys[i] in b.best && b.keys[i] < |all|
    requires !Exact(Scan(all, q, library, false, |all|))
    ensures Answers(all, q, limit, library, Top(Hits(b, all, |b.keys|), limit))
  {
    hide Fair; hide Sound; hide Scan; hide Hits; hide Top; hide Count; hide WantedSet; hide SameRanks;
    forall t: Hit { BoardScan(b, all, q, library, false, Ahead(t)); }
    HitsSound(b, all, q, library, |b.keys|);
    TopSound(all, q, library, Hits(b, all, |b.keys|), limit);
    BoardScan(b, all, q, library, false, AtLeast(0));
    TopSame(Hits(b, all, |b.keys|), Scan(all, q, library, false, |all|), limit);
  }

  lemma NarrowAnswer(b: Board, all: seq<Declaration>, q: string, limit: nat, library: Option<nat>)
    requires Fair(b, all, q, library) && b.best.Keys == WantedSet(all, q, library, true, |all|)
    requires forall i | 0 <= i < |b.keys| :: b.keys[i] in b.best && b.keys[i] < |all|
    requires var full := Scan(all, q, library, false, |all|); Exact(full) || Enough(full, limit)
    ensures Answers(all, q, limit, library, Top(Hits(b, all, |b.keys|), limit))
  {
    hide Fair; hide Sound; hide Scan; hide Hits; hide Top; hide Count; hide WantedSet; hide SameRanks;
    var full, narrow, hits := Scan(all, q, library, false, |all|), Scan(all, q, library, true, |all|), Hits(b, all, |b.keys|);
    forall t: Hit { BoardScan(b, all, q, library, true, Ahead(t)); }
    BoardScan(b, all, q, library, true, AtLeast(STRONG));
    HitsSound(b, all, q, library, |b.keys|);
    TopSound(all, q, library, hits, limit);
    TopSame(hits, narrow, limit);
    if Enough(full, limit) {
      NarrowStrong(all, q, library, AtLeast(STRONG));
      forall t: Hit | t.score >= STRONG ensures Count(hits, Ahead(t)) == Count(full, Ahead(t)) {
        NarrowStrong(all, q, library, Ahead(t));
      }
      TopStrong(hits, full, STRONG, limit);
    }
  }

  // The code's two tests decide whether the full scan has an exact match or enough strong ones.
  lemma Tests(b: Board, all: seq<Declaration>, q: string, limit: nat, library: Option<nat>, x: int)
    requires Fair(b, all, q, library) && b.best.Keys == WantedSet(all, q, library, true, |all|) && x > 1200
    requires forall i | 0 <= i < |b.keys| :: b.keys[i] in b.best && b.keys[i] < |all|
    ensures Count(Hits(b, all, |b.keys|), AtLeast(x)) == Count(Scan(all, q, library, false, |all|), AtLeast(x))
  {
    hide Fair; hide Scan; hide Hits; hide Count; hide WantedSet;
    BoardScan(b, all, q, library, true, AtLeast(x));
    NarrowStrong(all, q, library, AtLeast(x));
  }

  // Everything the three lookups find, and nothing else.
  method Indexed(all: seq<Declaration>, byFull: map<string, seq<nat>>, bySegment: map<string, seq<nat>>, suffixes: seq<Pair>,
                 q: string, library: Option<nat>) returns (b: Board)
    requires q != "" && Lower(q) == q
    requires Lists(byFull, all, false, |all|) && Lists(bySegment, all, true, |all|)
    requires Tabled(suffixes, all, |all|) && KeySorted(suffixes)
    ensures Fair(b, all, q, library) && b.best.Keys == WantedSet(all, q, library, true, |all|)
  {
    hide Fair; hide Score; hide Lower; hide Segment; hide Tabled; hide Findable; hide Matching;
    b := Board([], map[]);
    EmptyFair(all, q, library);
    var exact := if q in byFull then byFull[q] else [];
    forall idx | idx in exact ensures idx < |all| && Score(q, Full(all[idx])) == EXACT && Findable(q, Full(all[idx])) {
      FiledExact(byFull, all, false, q, idx);
    }
    b := ConsiderAll(b, all, q, library, exact, true);
    var segment := if q in bySegment then bySegment[q] else [];
    forall idx | idx in segment ensures idx < |all| && Score(q, Full(all[idx])) == EXACT && Findable(q, Full(all[idx])) {
      FiledExact(bySegment, all, true, q, idx);
    }
    b := ConsiderAll(b, all, q, library, segment, true);
    var found := PrefixIndices(suffixes, q);
    forall idx: nat ensures idx in found <==> idx < |all| && Findable(q, Full(all[idx])) { TableFinds(suffixes, all, q, idx); }
    b := ConsiderAll(b, all, q, library, found, false);
  }

  lemma EmptyFair(all: seq<Declaration>, q: string, library: Option<nat>)
    ensures Fair(Board([], map[]), all, q, library)
  {
  }

  /** Index lookup, with the fallback scan when it is needed, answers like the full scan. */
  method Search(all: seq<Declaration>, byFull: map<string, seq<nat>>, bySegment: map<string, seq<nat>>, suffixes: seq<Pair>,
                q: string, limit: nat, library: Option<nat>) returns (hits: seq<Hit>)
    requires q != "" && Lower(q) == q
    requires Lists(byFull, all, false, |all|) && Lists(bySegment, all, true, |all|)
    requires Tabled(suffixes, all, |all|) && KeySorted(suffixes)
    ensures Answers(all, q, limit, library, hits)
  {
    hide Fair; hide WantedSet; hide Lists; hide Tabled; hide KeySorted; hide Lower; hide Answers; hide Count; hide Hits; hide Scan;
    var b := Indexed(all, byFull, bySegment, suffixes, q, library);
    FairKeys(b, all, q, library);
    Tests(b, all, q, limit, library, EXACT);
    Tests(b, all, q, limit, library, STRONG);
    var exact := CountReaching(b, all, EXACT);
    var strong := CountReaching(b, all, STRONG);
    if exact == 0 && strong < (if limit < 1 then 1 else limit) {
      b := Fallback(b, all, q, library);
      FairKeys(b, all, q, library);
      FullAnswer(b, all, q, limit, library);
    } else {
      NarrowAnswer(b, all, q, limit, library);
    }
    hits := Top(Hits(b, all, |b.keys|), limit);
  }

  // ---- What an exact match leaves out ----

  // A listed declaration that only the fallback scan finds.
  ghost predicate Missed(all: seq<Declaration>, q: string, library: Option<nat>, k: nat) {
    Wanted(all, q, library, false, k) && !Wanted(all, q, library, true, k)
  }

  ghost predicate Covered(all: seq<Declaration>, q: string, library: Option<nat>, limit: nat) {
    forall k: nat | k < |all| && Missed(all, q, library, k) ::
      Count(Scan(all, q, library, true, |all|), Ahead(HitOf(all, q, k))) >= limit
  }

  // At a mark that no missed hit meets both scans count alike.
  lemma SameAbove(all: seq<Declaration>, q: string, library: Option<nat>, m: Mark)
    requires forall k: nat | k < |all| && Missed(all, q, library, k) :: !Meets(HitOf(all, q, k), m)
    ensures Count(Scan(all, q, library, true, |all|), m) == Count(Scan(all, q, library, false, |all|), m)
  {
    hide HitOf; hide Meets; hide Listed; hide Findable; hide Count; hide Scan;
    ScanCount(all, q, library, true, m, |all|);
    ScanCount(all, q, library, false, m, |all|);
    var some, whole := WantedSet(all, q, library, true, |all|), WantedSet(all, q, library, false, |all|);
    forall k | k in Reaching(all, q, whole, m) ensures k in Reaching(all, q, some, m) {
      assert !Missed(all, q, library, k);
    }
    assert Reaching(all, q, some, m) == Reaching(all, q, whole, m);
  }

  lemma Subset(a: set<nat>, b: set<nat>)
    requires a <= b
    ensures |a| <= |b| && (a != b ==> |a| < |b|)
  {
    assert b == a + (b - a);
    if a != b { assert b - a != {}; }
  }

  // The full scan counts at least as much, and more where a missed hit ranks.
  lemma MoreBelow(all: seq<Declaration>, q: string, library: Option<nat>, m: Mark)
    ensures Count(Scan(all, q, library, true, |all|), m) <= Count(Scan(all, q, library, false, |all|), m)
  {
    hide HitOf; hide Meets; hide Listed; hide Findable; hide Count; hide Scan;
    ScanCount(all, q, library, true, m, |all|);
    ScanCount(all, q, library, false, m, |all|);
    Subset(Reaching(all, q, WantedSet(all, q, library, true, |all|), m), Reaching(all, q, WantedSet(all, q, library, false, |all|), m));
  }

  lemma MissedCounts(all: seq<Declaration>, q: string, library: Option<nat>, k: nat)
    requires k < |all| && Missed(all, q, library, k)
    ensures var m := Ahead(HitOf(all, q, k));
            Count(Scan(all, q, library, true, |all|), m) < Count(Scan(all, q, library, false, |all|), m)
  {
    hide HitOf; hide Listed; hide Findable; hide Count; hide Scan;
    var m := Ahead(HitOf(all, q, k));
    ScanCount(all, q, library, true, m, |all|);
    ScanCount(all, q, library, false, m, |all|);
    var some := Reaching(all, q, WantedSet(all, q, library, true, |all|), m);
    var whole := Reaching(all, q, WantedSet(all, q, library, false, |all|), m);
    assert k in whole && k !in some;
    Subset(some, whole);
  }

  // One missed hit that too few others outrank shows up in the full scan's top.
  lemma MissedShows(all: seq<Declaration>, q: string, library: Option<nat>, limit: nat, k: nat)
    requires k < |all| && Missed(all, q, library, k)
    requires Count(Scan(all, q, library, true, |all|), Ahead(HitOf(all, q, k))) < limit
    ensures !SameRanks(Top(Scan(all, q, library, true, |all|), limit), Top(Scan(all, q, library, false, |all|), limit))
  {
    hide HitOf; hide Missed; hide Count; hide Scan; hide Rank;
    var narrow, full, m := Scan(all, q, library, true, |all|), Scan(all, q, library, false, |all|), Ahead(HitOf(all, q, k));
    var i := Count(narrow, m);
    MissedCounts(all, q, library, k);
    CountSize(full, m);
    RankOrders(narrow);
    RankOrders(full);
    Reach(full, m, i);
    if i < |narrow| { Reach(narrow, m, i); }
  }

  lemma CoveredAt(all: seq<Declaration>, q: string, library: Option<nat>, limit: nat, i: nat)
    requires Covered(all, q, library, limit) && i < limit && i < |Scan(all, q, library, true, |all|)|
    requires i < |Scan(all, q, library, false, |all|)|
    ensures |Rank(Scan(all, q, library, true, |all|))| == |Scan(all, q, library, true, |all|)|
    ensures |Rank(Scan(all, q, library, false, |all|))| == |Scan(all, q, library, false, |all|)|
    ensures Level(Rank(Scan(all, q, library, true, |all|))[i], Rank(Scan(all, q, library, false, |all|))[i])
  {
    hide HitOf; hide Missed; hide Count; hide Scan; hide Rank;
    var narrow, full := Scan(all, q, library, true, |all|), Scan(all, q, library, false, |all|);
    RankOrders(narrow);
    RankOrders(full);
    var x, y := Rank(narrow)[i], Rank(full)[i];
    Reach(narrow, Ahead(x), i);
    MoreBelow(all, q, library, Ahead(x));
    Reach(full, Ahead(x), i);
    if !Before(x, y) {
      forall k: nat | k < |all| && Missed(all, q, library, k) ensures !Meets(HitOf(all, q, k), Ahead(y)) {
        Reach(narrow, Ahead(HitOf(all, q, k)), i);
      }
      SameAbove(all, q, library, Ahead(y));
      Reach(full, Ahead(y), i);
      Reach(narrow, Ahead(y), i);
    }
    BothBefore(x, y);
  }

  /**
    An exact match skips the fallback whatever `limit` asks for. The returned
    ranks are still the full scan's if and only if at least `limit` hits of the
    table rank no later than each missed hit.
   */
  lemma ExactMatchSuffices(all: seq<Declaration>, q: string, library: Option<nat>, limit: nat)
    ensures SameRanks(Top(Scan(all, q, library, true, |all|), limit), Top(Scan(all, q, library, false, |all|), limit))
            <==> Covered(all, q, library, limit)
  {
    hide HitOf; hide Missed; hide Count; hide Scan; hide Rank; hide Level;
    var narrow, full := Scan(all, q, library, true, |all|), Scan(all, q, library, false, |all|);
    if k: nat :| k < |all| && Missed(all, q, library, k) && Count(narrow, Ahead(HitOf(all, q, k))) < limit {
      MissedShows(all, q, library, limit, k);
    } else {
      RankOrders(narrow);
      RankOrders(full);
      Lengths(all, q, library, limit);
      forall i | 0 <= i < |Top(narrow, limit)| ensures Level(Top(narrow, limit)[i], Top(full, limit)[i]) {
        CoveredAt(all, q, library, limit, i);
      }
    }
  }

  lemma Lengths(all: seq<Declaration>, q: string, library: Option<nat>, limit: nat)
    requires Covered(all, q, library, limit)
    ensures var narrow, full := Scan(all, q, library, true, |all|), Scan(all, q, library, false, |all|);
            |narrow| <= |full| && Least(limit, |narrow|) == Least(limit, |full|)
  {
    hide HitOf; hide Count; hide Scan; hide Listed; hide Findable;
    ScanCount(all, q, library, true, AtLeast(0), |all|);
    ScanCount(all, q, library, false, AtLeast(0), |all|);
    var some, whole := WantedSet(all, q, library, true, |all|), WantedSet(all, q, library, false, |all|);
    assert some <= whole && whole == some + (whole - some);
    if k: nat :| k < |all| && Missed(all, q, library, k) {
      CountSize(Scan(all, q, library, true, |all|), Ahead(HitOf(all, q, k)));
    } else {
      forall k | k in whole ensures k in some { assert !Missed(all, q, library, k); }
      assert some == whole;
    }
  }

  // ---- A search that an exact match cuts short ----

  const SHELF := [Declaration("ab", 0), Declaration("xab", 0)]

  lemma ExactWord()
    ensures Score("ab", "ab") == EXACT && Findable("ab", "ab")
  {
    ExactScore("ab", "ab");
  }

  lemma InnerWord()
    ensures Score("ab", "xab") == 1199 && !Findable("ab", "xab")
  {
    hide FirstHit; hide Segment; hide Score; hide Holds;
    DotFree("ab", "xab");
    FindableHit("ab", "xab");
    assert "ab"[0] != "xab"[0];
    assert !Begins("ab", "xab");
    assert "xab"[1..] == "ab";
    assert Contains("xab", "ab");
    InsideScore("ab", "xab");
  }

  lemma Lowered()
    ensures Full(SHELF[0]) == "ab" && Full(SHELF[1]) == "xab"
  {
  }

  lemma ShelfScans()
    ensures Scan(SHELF, "ab", None, true, 2) == [Hit(0, EXACT, 2)]
    ensures Scan(SHELF, "ab", None, false, 2) == [Hit(0, EXACT, 2), Hit(1, 1199, 3)]
  {
    hide Score; hide Findable; hide Lower;
    ExactWord();
    InnerWord();
    Lowered();
    assert Scan(SHELF, "ab", None, true, 0) == [] && Scan(SHELF, "ab", None, false, 0) == [];
    assert Scan(SHELF, "ab", None, true, 1) == [Hit(0, EXACT, 2)] && Scan(SHELF, "ab", None, false, 1) == [Hit(0, EXACT, 2)];
  }

  /**
    Two declarations, "ab" and "xab": asked for two hits of "ab", the search
    answers one, because the exact match skips the scan that finds the other.
   */
  lemma ExactMatchCutsShort(hits: seq<Hit>)
    requires Answers(SHELF, "ab", 2, None, hits)
    ensures |hits| == 1 && |Top(Scan(SHELF, "ab", None, false, 2), 2)| == 2
  {
    hide Sound; hide Scan; hide Enough; hide Rank;
    ShelfScans();
    var full, narrow := Scan(SHELF, "ab", None, false, 2), Scan(SHELF, "ab", None, true, 2);
    CountPush([Hit(0, EXACT, 2)], Hit(1, 1199, 3), AtLeast(EXACT));
    CountPush([], Hit(0, EXACT, 2), AtLeast(EXACT));
    assert full == [Hit(0, EXACT, 2)] + [Hit(1, 1199, 3)] && [] + [Hit(0, EXACT, 2)] == [Hit(0, EXACT, 2)];
    RankOrders(full);
    RankOrders(narrow);
  }

  // ---- What an answer means ----

  /**
    Every hit is a declaration of the library that contains the query and
    scores above zero, none appears twice, and they come by falling score with
    shorter names first.
   */
  lemma AnswersRank(all: seq<Declaration>, q: string, limit: nat, library: Option<nat>, hits: seq<Hit>)
    requires Answers(all, q, limit, library, hits)
    ensures |hits| <= limit
    ensures forall i | 0 <= i < |hits| ::
              && hits[i].idx < |all| && hits[i].length == |all[hits[i].idx].name| && hits[i].score == Score(q, Lower(all[hits[i].idx].name)) > 0
              && (library.Some? ==> all[hits[i].idx].library == library.value) && Contains(Lower(all[hits[i].idx].name), q)
    ensures forall i, j | 0 <= i < j < |hits| ::
              && hits[i].idx != hits[j].idx
              && (hits[i].score > hits[j].score || (hits[i].score == hits[j].score && hits[i].length <= hits[j].length))
  {
    hide Score; hide Lower; hide Scan; hide Rank; hide Count; hide Contains;
    var full, narrow := Scan(all, q, library, false, |all|), Scan(all, q, library, true, |all|);
    var some := if Exact(full) then narrow else full;
    TopRanks(some, limit);
    assert SameRanks(hits, Top(some, limit));
    forall i | 0 <= i < |hits| ensures Contains(Lower(all[hits[i].idx].name), q) {
      ScoredContained(q, Lower(all[hits[i].idx].name));
    }
    forall i, j | 0 <= i < j < |hits| ensures hits[i].idx != hits[j].idx {
      if hits[i].idx == hits[j].idx { Repeated(hits, i, j); }
    }
  }

  lemma Repeated(s: seq<Hit>, i: nat, j: nat)
    requires i < j < |s| && s[i] == s[j]
    ensures s[i] in s && multiset(s)[s[i]] > 1
  {
    assert s == s[..j] + [s[j]] + s[j + 1..];
    assert s[i] in s[..j];
  }

  /** A declaration named exactly by the query, in full or by its last segment, puts an exact match first. */
  lemma ExactComesFirst(all: seq<Declaration>, q: string, limit: nat, library: Option<nat>, hits: seq<Hit>, k: nat)
    requires Answers(all, q, limit, library, hits) && limit > 0 && k < |all| && q != ""
    requires library.Some? ==> all[k].library == library.value
    requires q == Lower(all[k].name) || q == Segment(Lower(all[k].name))
    ensures |hits| > 0 && hits[0].score >= EXACT && (Ordinary(q) ==> hits[0].score == EXACT)
  {
    hide Score; hide Lower; hide Scan; hide Rank; hide Count; hide Segment; hide Ordinary; hide Findable;
    var full, narrow, m := Scan(all, q, library, false, |all|), Scan(all, q, library, true, |all|), AtLeast(EXACT);
    ExactScore(q, Full(all[k]));
    ScanCount(all, q, library, false, m, |all|);
    assert k in Reaching(all, q, WantedSet(all, q, library, false, |all|), m);
    NarrowStrong(all, q, library, m);
    CountSize(narrow, m);
    Reach(narrow, m, 0);
    assert SameRanks(hits, Top(narrow, limit));
    if Ordinary(q) { OrdinaryScore(q, Lower(all[hits[0].idx].name)); }
  }

  // ---- The cached index ----

  class SearchIndex {
    const declarations: seq<Declaration>
    var byFull: map<string, seq<nat>>
    var bySegment: map<string, seq<nat>>
    var suffixes: Option<seq<Pair>>

    // A filled cache describes the declarations.
    ghost predicate Valid()
      reads this
    {
      suffixes.Some? ==>
        && Lists(byFull, declarations, false, |declarations|) && Lists(bySegment, declarations, true, |declarations|)
        && Tabled(suffixes.value, declarations, |declarations|) && KeySorted(suffixes.value)
    }

    constructor (all: seq<Declaration>)
      ensures Valid() && declarations == all && suffixes.None?
    {
      declarations, byFull, bySegment, suffixes := all, map[], map[], None;
    }

    /** Fills the cache once; a filled cache is left alone. */
    method EnsureNameIndex()
      requires Valid()
      modifies this
      ensures Valid() && suffixes.Some?
      ensures old(suffixes).Some? ==> suffixes == old(suffixes) && byFull == old(byFull) && bySegment == old(bySegment)
    {
      hide Sort; hide Lower; hide Segment; hide Tabled; hide Lists; hide DotSuffix; hide Filed; hide KeySorted;
      if suffixes.Some? { return; }
      var full, segments, table := map[], map[], [];
      EmptyIndex(declarations);
      for idx := 0 to |declarations|
        invariant Lists(full, declarations, false, idx) && Lists(segments, declarations, true, idx)
        invariant Tabled(table, declarations, idx)
        invariant suffixes.None?
      {
        var name := Full(declarations[idx]);
        FiledLists(full, declarations, false, idx);
        FiledLists(segments, declarations, true, idx);
        full := Filed(full, name, idx);
        segments := Filed(segments, Segment(name), idx);
        var more := NameSuffixes(name, idx);
        TabledMore(table, more, declarations, idx);
        table := table + more;
      }
      TabledSorted(table, declarations, |declarations|);
      byFull, bySegment, suffixes := full, segments, Some(Sort(table));
    }

    /** The cached search answers like the full scan; it only fills the cache. */
    method SearchName(query: string, limit: nat, library: Option<nat>) returns (hits: seq<Hit>)
      requires Valid()
      modifies this
      ensures Valid()
      ensures Answers(declarations, Lower(Strip(query)), limit, library, hits)
    {
      hide Answers; hide Lower; hide Strip; hide Tabled; hide Lists; hide KeySorted;
      var q := Lower(Strip(query));
      if q == "" || declarations == [] {
        NothingToFind(declarations, q, limit, library);
        return [];
      }
      EnsureNameIndex();
      LowerTwice(Strip(query));
      hits := Search(declarations, byFull, bySegment, suffixes.value, q, limit, library);
    }
  }

  lemma EmptyIndex(all: seq<Declaration>)
    ensures Lists(map[], all, false, 0) && Lists(map[], all, true, 0) && Tabled([], all, 0)
  {
  }

  lemma {:induction false} EmptyScan(all: seq<Declaration>, library: Option<nat>, narrow: bool, n: nat)
    requires n <= |all|
    ensures Scan(all, "", library, narrow, n) == []
  {
    if n > 0 { EmptyScan(all, library, narrow, n - 1); }
  }

  lemma NothingToFind(all: seq<Declaration>, q: string, limit: nat, library: Option<nat>)
    requires q == "" || all == []
    ensures Answers(all, q, limit, library, [])
  {
    if q == "" {
      EmptyScan(all, library, false, |all|);
      EmptyScan(all, library, true, |all|);
    }
    assert Scan(all, q, library, false, |all|) == [] && Scan(all, q, library, true, |all|) == [];
  }
}
