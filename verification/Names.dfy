/**
  How a declaration name is scored against a query (search/index.py
  `_name_score`). Scores are scaled by twenty, so that every weight and
  penalty is an integer.
 */
module Names {
  // ---- Text ----

  function LowerChar(c: char): char { if 'A' <= c <= 'Z' then c - 'A' + 'a' else c }

  function Lower(s: string): (r: string)
    ensures |r| == |s|
  {
    seq(|s|, (i: nat) requires i < |s| => LowerChar(s[i]))
  }

  lemma LowerTwice(s: string)
    ensures Lower(Lower(s)) == Lower(s)
  {
  }

  predicate Upper(c: char) { 'A' <= c <= 'Z' }

  ghost predicate SameLetter(c: char, d: char) {
    c == d || (Upper(c) && d as int == c as int + 32) || (Upper(d) && c as int == d as int + 32)
  }

  /** Two texts compare equal exactly when they differ in letter case alone. */
  lemma CaseIsIgnored(s: string, t: string)
    ensures Lower(s) == Lower(t) <==> |s| == |t| && forall i | 0 <= i < |s| :: SameLetter(s[i], t[i])
  {
    if Lower(s) == Lower(t) {
      forall i | 0 <= i < |s| ensures SameLetter(s[i], t[i]) { assert Lower(s)[i] == Lower(t)[i]; }
    }
  }

  // `startswith`.
  predicate Begins(q: string, s: string) { q <= s }

  lemma BeginsItself(q: string)
    ensures Begins(q, q)
  {
  }

  // The query starts at some position of the text.
  ghost predicate Contains(s: string, q: string) { exists i | 0 <= i <= |s| :: Begins(q, s[i..]) }

  // `in` on strings.
  predicate Holds(s: string, q: string) { Begins(q, s) || (|s| > 0 && Holds(s[1..], q)) }

  lemma {:induction false} HoldsContains(s: string, q: string)
    ensures Holds(s, q) <==> Contains(s, q)
  {
    assert s[0..] == s;
    if |s| > 0 {
      HoldsContains(s[1..], q);
      if Contains(s[1..], q) {
        var i :| 0 <= i <= |s[1..]| && Begins(q, s[1..][i..]);
        assert s[1..][i..] == s[i + 1..];
      }
      if Contains(s, q) && !Begins(q, s) {
        var i :| 0 <= i <= |s| && Begins(q, s[i..]);
        assert s[1..][i - 1..] == s[i..];
      }
    } else if Contains(s, q) {
      var i :| 0 <= i <= |s| && Begins(q, s[i..]);
      assert s[i..] == s;
    }
  }

  // `find(".", start)`.
  function FindDot(s: string, start: nat): (d: int)
    requires start <= |s|
    ensures d == -1 || (start <= d < |s| && s[d] == '.')
    ensures forall i | start <= i < (if d < 0 then |s| else d) :: s[i] != '.'
    decreases |s| - start
  {
    if start == |s| then -1 else if s[start] == '.' then start else FindDot(s, start + 1)
  }

  // `rsplit(".", 1)`.
  function LastDot(s: string, n: nat): (d: int)
    requires n <= |s|
    ensures d == -1 || (0 <= d < n && s[d] == '.')
    ensures forall i | d < i < n :: s[i] != '.'
  {
    if n == 0 then -1 else if s[n - 1] == '.' then n - 1 else LastDot(s, n - 1)
  }

  function Segment(s: string): string { s[LastDot(s, |s|) + 1..] }

  function BeforeSegment(s: string): string { if LastDot(s, |s|) < 0 then s else s[..LastDot(s, |s|)] }

  // ---- Dot-suffixes ----

  // A name, or what follows one of its dots.
  ghost predicate DotSuffix(name: string, t: string) { t == name || exists d: nat :: AfterDot(name, d, t) }

  ghost predicate AfterDot(name: string, d: nat, t: string) { d < |name| && name[d] == '.' && t == name[d + 1..] }

  // Some dot-suffix starts with the query: what the sorted table can find.
  ghost predicate Findable(q: string, name: string) { exists t :: DotSuffix(name, t) && Begins(q, t) }

  // The leftmost suffix after a dot that starts with the query.
  function FirstHit(q: string, name: string, start: nat): (r: int)
    requires start <= |name|
    ensures r == -1 || (start <= r < |name| && name[r] == '.' && Begins(q, name[r + 1..]))
    decreases |name| - start
  {
    var dot := FindDot(name, start);
    if dot < 0 then -1 else if Begins(q, name[dot + 1..]) then dot else FirstHit(q, name, dot + 1)
  }

  lemma {:induction false} Leftmost(q: string, name: string, start: nat)
    requires start <= |name|
    ensures var r := FirstHit(q, name, start);
            forall d | start <= d < (if r < 0 then |name| else r) && name[d] == '.' :: !Begins(q, name[d + 1..])
    decreases |name| - start
  {
    hide Begins;
    var dot := FindDot(name, start);
    if dot >= 0 && !Begins(q, name[dot + 1..]) {
      hide FindDot;
      Leftmost(q, name, dot + 1);
    }
  }

  lemma HitStep(q: string, name: string, start: nat)
    requires start <= |name|
    ensures var dot := FindDot(name, start);
            FirstHit(q, name, start) == if dot < 0 then -1 else if Begins(q, name[dot + 1..]) then dot else FirstHit(q, name, dot + 1)
  {
  }

  // ---- Scores ----

  const EXACT := 2000
  const STRONG := 1400

  function Score(q: string, name: string): int {
    var segment := Segment(name);
    var hit := FirstHit(q, name, 0);
    if q == "" then 0
    else if q == name || q == segment then EXACT
    else if Begins(q, segment) then 1600 - 2 * (|segment| - |q|)
    else if Begins(q, name) then STRONG - 2 * (|name| - |q|)
    else if hit >= 0 then
      var suffix := name[hit + 1..];
      if suffix == q then EXACT else 1600 - 2 * (|BeforeSegment(suffix)| - |q|)
    else if Holds(name, q) then 1200 - (|name| - |q|)
    else 0
  }

  /** The scorer's loop over dots computes the specified score. */
  method NameScore(query: string, name: string) returns (score: int)
    ensures score == Score(Lower(query), Lower(name))
  {
    hide Lower; hide LastDot; hide FindDot; hide Holds; hide FirstHit; hide Segment; hide BeforeSegment; hide Begins;
    var q, n := Lower(query), Lower(name);
    if q == "" { return 0; }
    var segment := Segment(n);
    if q == n || q == segment { return EXACT; }
    if Begins(q, segment) { return 1600 - 2 * (|segment| - |q|); }
    if Begins(q, n) { return STRONG - 2 * (|n| - |q|); }
    BeginsItself(q);
    var start := 0;
    while true
      invariant 0 <= start <= |n| && FirstHit(q, n, 0) == FirstHit(q, n, start)
      decreases |n| - start
    {
      HitStep(q, n, start);
      var dot := FindDot(n, start);
      if dot < 0 { break; }
      var suffix := n[dot + 1..];
      if suffix == q { return EXACT; }
      if Begins(q, suffix) { return 1600 - 2 * (|BeforeSegment(suffix)| - |q|); }
      start := dot + 1;
    }
    if Holds(n, q) { return 1200 - (|n| - |q|); }
    return 0;
  }

  // ---- What a score reveals ----

  /** A query that scores occurs in the name. */
  lemma ScoredContained(q: string, name: string)
    requires Score(q, name) > 0
    ensures Contains(name, q)
  {
    hide Holds; hide BeforeSegment; hide FirstHit; hide LastDot;
    HoldsContains(name, q);
    assert name[0..] == name;
  }

  lemma NoHit(q: string, name: string, t: string)
    requires FirstHit(q, name, 0) == -1 && DotSuffix(name, t) && Begins(q, t)
    ensures Begins(q, name)
  {
    hide FirstHit; hide Begins;
    Leftmost(q, name, 0);
  }

  lemma HitSuffix(q: string, name: string)
    requires FirstHit(q, name, 0) >= 0
    ensures Findable(q, name)
  {
    hide Begins;
    var r := FirstHit(q, name, 0);
    hide FirstHit;
    assert AfterDot(name, r, name[r + 1..]);
    assert DotSuffix(name, name[r + 1..]);
  }

  lemma FindableHit(q: string, name: string)
    ensures Findable(q, name) <==> Begins(q, name) || FirstHit(q, name, 0) >= 0
  {
    hide FirstHit; hide Begins; hide DotSuffix;
    if Begins(q, name) { SelfSuffix(name); }
    if FirstHit(q, name, 0) >= 0 {
      HitSuffix(q, name);
    } else if Findable(q, name) {
      var t :| DotSuffix(name, t) && Begins(q, t);
      NoHit(q, name, t);
    }
  }

  lemma SelfSuffix(name: string)
    ensures DotSuffix(name, name)
  {
  }

  lemma DotFree(q: string, name: string)
    requires '.' !in name
    ensures FirstHit(q, name, 0) == -1 && Segment(name) == name
  {
  }

  lemma SegmentSuffix(name: string)
    ensures DotSuffix(name, Segment(name))
  {
    var d := LastDot(name, |name|);
    if d < 0 { assert name[0..] == name; } else { assert AfterDot(name, d, Segment(name)); }
  }

  /** A name the sorted table cannot find scores below every strong match. */
  lemma UnfindableWeak(q: string, name: string)
    requires !Findable(q, name)
    ensures Score(q, name) <= 1200
    ensures Score(q, name) > 0 ==> Score(q, name) == 1200 - (|name| - |q|)
  {
    hide Holds; hide BeforeSegment; hide FirstHit; hide Segment; hide DotSuffix;
    FindableHit(q, name);
    SegmentSuffix(name);
    HoldsContains(name, q);
    if Contains(name, q) {
      var i :| 0 <= i <= |name| && Begins(q, name[i..]);
    }
  }

  // The dictionaries give the scorer's weight.
  lemma ExactScore(q: string, name: string)
    requires q != "" && (q == name || q == Segment(name))
    ensures Score(q, name) == EXACT && Findable(q, name)
  {
    SegmentSuffix(name);
    assert DotSuffix(name, name);
  }

  // ---- What a score means ----

  // The last segment holds no dot, and the name is what precedes it, a dot, and it.
  lemma SegmentIs(name: string)
    ensures '.' !in Segment(name)
    ensures '.' in name ==> name == BeforeSegment(name) + "." + Segment(name)
    ensures '.' !in name ==> Segment(name) == name
  {
  }

  // The four ways to match short of equality, from the strongest to the weakest.
  ghost predicate InSegment(q: string, name: string) { q != "" && q < Segment(name) }

  ghost predicate InFront(q: string, name: string) { q < name && !(q <= Segment(name)) }

  // Some later dot-suffix begins with the query; d is the dot of the leftmost.
  ghost predicate Midway(q: string, name: string, d: nat) {
    && q != "" && !(q <= name) && !(q <= Segment(name))
    && d < |name| && name[d] == '.' && q <= name[d + 1..]
    && (forall b | 0 <= b < d && name[b] == '.' :: !(q <= name[b + 1..]))
  }

  ghost predicate Inside(q: string, name: string) { q != "" && Contains(name, q) && !Findable(q, name) }

  /** A query that begins the last segment loses two for each character it leaves out, from 1600. */
  lemma SegmentPrefixScore(q: string, name: string)
    requires InSegment(q, name)
    ensures Score(q, name) == 1600 - 2 * (|Segment(name)| - |q|) < 1600
    ensures Score(q, name) >= 1 <==> |Segment(name)| < |q| + 800
  {
    hide FirstHit; hide Holds; hide BeforeSegment;
  }

  /** Among names whose last segment begins with the query, the shorter segment ranks strictly higher. */
  lemma ShorterSegmentsWin(q: string, m: string, n: string)
    requires InSegment(q, m) && InSegment(q, n)
    ensures Score(q, m) > Score(q, n) <==> |Segment(m)| < |Segment(n)|
  {
    hide Score; hide Segment;
    SegmentPrefixScore(q, m);
    SegmentPrefixScore(q, n);
  }

  /** A query that only begins the whole name stays below 1400, and the shorter name ranks higher. */
  lemma NamePrefixScore(q: string, name: string)
    requires q != "" && InFront(q, name)
    ensures Score(q, name) == 1400 - 2 * (|name| - |q|) < 1400
  {
    hide FirstHit; hide Holds; hide BeforeSegment; hide LastDot;
  }

  /** A query that occurs only inside a segment scores at most 1200, less one for each character left out. */
  lemma InsideScore(q: string, name: string)
    requires Inside(q, name)
    ensures Score(q, name) == 1200 - (|name| - |q|) <= 1200
  {
    hide FirstHit; hide BeforeSegment; hide Segment; hide DotSuffix; hide Holds;
    FindableHit(q, name);
    SegmentSuffix(name);
    HoldsContains(name, q);
    var i :| 0 <= i <= |name| && Begins(q, name[i..]);
  }

  /** What ranks between two names that leave out equally many characters. */
  lemma ClassesInOrder(q: string, m: string, n: string, l: string, k: nat)
    requires InSegment(q, m) && |Segment(m)| == |q| + k
    requires InFront(q, n) && |n| == |q| + k
    requires Inside(q, l) && |l| == |q| + k
    ensures Score(q, m) > Score(q, n)
    ensures Score(q, m) > Score(q, l) <==> k < 400
    ensures Score(q, n) > Score(q, l) <==> k < 200
  {
    hide Score; hide Segment; hide Contains; hide Findable;
    SegmentPrefixScore(q, m);
    NamePrefixScore(q, n);
    InsideScore(q, l);
  }

  lemma HitAt(q: string, name: string, d: nat)
    requires Midway(q, name, d)
    ensures FirstHit(q, name, 0) == d
  {
    hide FirstHit; hide Segment;
    Leftmost(q, name, 0);
  }

  /** A query that begins a later dot-suffix is charged for what precedes that suffix's last segment. */
  lemma MidwayScore(q: string, name: string, d: nat)
    requires Midway(q, name, d)
    ensures var t := name[d + 1..];
            Score(q, name) == if t == q then EXACT else 1600 - 2 * (|t| - |Segment(t)| - 1 - |q|)
  {
    hide Holds; hide FirstHit;
    var t := name[d + 1..];
    HitAt(q, name, d);
    if '.' !in t { SegmentOfSuffix(name, d); SegmentIs(t); }
  }

  lemma {:induction false} LastDotOfSuffix(name: string, d: nat, n: nat)
    requires d < n <= |name| && name[d] == '.'
    ensures LastDot(name, n) == d + 1 + LastDot(name[d + 1..], n - d - 1)
  {
    if n > d + 1 {
      LastDotOfSuffix(name, d, n - 1);
      assert name[d + 1..][n - d - 2] == name[n - 1];
    }
  }

  lemma SegmentOfSuffix(name: string, d: nat)
    requires d < |name| && name[d] == '.'
    ensures Segment(name[d + 1..]) == Segment(name)
  {
    hide LastDot;
    LastDotOfSuffix(name, d, |name|);
    var t := name[d + 1..];
    var j := LastDot(t, |t|) + 1;
    assert t[j..] == name[d + 1 + j..];
  }

  lemma HitMidway(q: string, name: string)
    requires q != "" && !(q <= name) && !(q <= Segment(name)) && FirstHit(q, name, 0) >= 0
    ensures Midway(q, name, FirstHit(q, name, 0))
  {
    hide Segment;
    Leftmost(q, name, 0);
  }

  lemma MissInside(q: string, name: string)
    requires q != "" && !(q <= name) && FirstHit(q, name, 0) < 0 && Holds(name, q)
    ensures Inside(q, name)
  {
    hide Holds; hide FirstHit;
    FindableHit(q, name);
    HoldsContains(name, q);
  }

  // Exhaustive: a scored name matches exactly or in one of the four ways.
  lemma ScoreClasses(q: string, name: string)
    requires Score(q, name) != 0
    ensures (q == name || q == Segment(name)) || InSegment(q, name) || InFront(q, name)
            || Inside(q, name) || (FirstHit(q, name, 0) >= 0 && Midway(q, name, FirstHit(q, name, 0)))
  {
    hide BeforeSegment; hide Segment; hide FirstHit; hide Holds; hide Inside; hide Midway;
    if !(q <= name) && !(q <= Segment(name)) {
      if FirstHit(q, name, 0) >= 0 { HitMidway(q, name); } else { MissInside(q, name); }
    }
  }

  // ---- Exact matches ----

  // The query's last segment is shorter than 200 characters, or it is a lone segment.
  predicate Ordinary(q: string) { '.' !in q || |Segment(q)| < 200 }

  lemma SpannedPrefix(q: string, t: string)
    requires q < t && !(q <= Segment(t))
    ensures |t| - |Segment(t)| - 1 - |q| >= if '.' in q then -|Segment(q)| - 1 else 0
  {
    var i, j := LastDot(t, |t|), LastDot(q, |q|);
    PrefixDots(q, t);
    hide LastDot; hide Begins;
    WholeSegment(t);
    if j < 0 { NoDot(q); }
  }

  lemma PrefixDots(q: string, t: string)
    requires q <= t
    ensures LastDot(q, |q|) <= LastDot(t, |t|)
    ensures LastDot(q, |q|) < 0 <= LastDot(t, |t|) ==> |q| <= LastDot(t, |t|)
  {
    var i, j := LastDot(t, |t|), LastDot(q, |q|);
    hide LastDot;
    if j >= 0 { assert t[j] == '.'; }
    if 0 <= i < |q| { assert q[i] == '.'; }
  }

  lemma WholeSegment(t: string)
    ensures LastDot(t, |t|) < 0 ==> Segment(t) == t
  {
  }

  lemma NoDot(q: string)
    requires LastDot(q, |q|) < 0
    ensures '.' !in q
  {
  }

  /** No name outranks an exact match, exactly for ordinary queries. */
  lemma ExactIsHighest(q: string)
    ensures (forall name :: Score(q, name) <= EXACT) <==> q == "" || Ordinary(q)
  {
    hide Score; hide Ordinary;
    if q == "" || Ordinary(q) {
      forall name ensures Score(q, name) <= EXACT { OrdinaryScore(q, name); }
    } else {
      LongOutranks(q);
    }
  }

  lemma OrdinaryScore(q: string, name: string)
    requires q == "" || Ordinary(q)
    ensures Score(q, name) <= EXACT
  {
    hide Score; hide Segment; hide LastDot; hide FirstHit; hide Contains; hide Findable;
    if q == "" { EmptyScore(name); }
    else if Score(q, name) != 0 {
      ScoreClasses(q, name);
      if q == name || q == Segment(name) { ExactScore(q, name); }
      else if InSegment(q, name) { SegmentPrefixScore(q, name); }
      else if InFront(q, name) { NamePrefixScore(q, name); }
      else if Inside(q, name) { InsideScore(q, name); }
      else {
        var d := FirstHit(q, name, 0);
        MidwayScore(q, name, d);
        SegmentOfSuffix(name, d);
        if name[d + 1..] != q { SpannedPrefix(q, name[d + 1..]); }
      }
    }
  }

  lemma EmptyScore(name: string)
    ensures Score("", name) == 0
  {
  }

  // A longer last segment after the query's own dots earns more than an exact match.
  lemma LongOutranks(q: string)
    requires q != "" && !Ordinary(q)
    ensures exists name :: Score(q, name) > EXACT
  {
    hide Score; hide Midway; hide Segment;
    var first := if q[0] == 'a' then "b" else "a";
    var name := first + "." + q + "z";
    LongMidway(q, first);
    MidwayScore(q, name, 1);
    assert name[2..] == q + "z";
    LongSegment(q);
  }

  lemma LongSegment(q: string)
    requires '.' in q
    ensures Segment(q + "z") == Segment(q) + "z"
  {
    var t := q + "z";
    PrefixDots(q, t);
    var i, j := LastDot(t, |t|), LastDot(q, |q|);
    hide LastDot;
    assert t[i] == '.' && i < |q|;
    assert q[i] == '.';
    assert i == j;
  }

  lemma LongMidway(q: string, first: string)
    requires '.' in q && |first| == 1 && first[0] != '.' && first[0] != q[0]
    ensures Midway(q, first + "." + q + "z", 1)
  {
    var name := first + "." + q + "z";
    assert name[2..] == q + "z";
    SegmentIs(name);
    hide LastDot;
  }

  /**
    A name that ends in the query after a dot is an exact match exactly when the
    whole name does not begin with the query and no earlier dot-suffix does.
   */
  lemma DotSuffixScore(q: string, name: string, d: nat)
    requires q != "" && AfterDot(name, d, q)
    ensures q == Segment(name) || (!(q <= name) && forall b | 0 <= b < d && name[b] == '.' :: !(q <= name[b + 1..]))
            ==> Score(q, name) == EXACT
    ensures Ordinary(q) && Score(q, name) == EXACT
            ==> q == Segment(name) || (!(q <= name) && forall b | 0 <= b < d && name[b] == '.' :: !(q <= name[b + 1..]))
  {
    hide Score; hide Segment; hide LastDot; hide FirstHit;
    if q == Segment(name) { ExactScore(q, name); }
    else {
      DottedQuery(q, name, d);
      if q <= name { NamePrefixScore(q, name); }
      else {
        var b := LeftmostHit(q, name, d);
        MidwayScore(q, name, b);
        SegmentOfSuffix(name, b);
        assert b < d ==> name[b + 1..] != q;
      }
    }
  }

  lemma DottedQuery(q: string, name: string, d: nat)
    requires AfterDot(name, d, q) && q != Segment(name)
    ensures '.' in q && !(q <= Segment(name)) && Segment(q) == Segment(name)
  {
    SegmentOfSuffix(name, d);
    SegmentIs(q);
    SegmentIs(name);
    hide LastDot; hide Segment;
    var i :| 0 <= i < |q| && q[i] == '.';
  }

  lemma LeftmostHit(q: string, name: string, d: nat) returns (b: nat)
    requires q != "" && AfterDot(name, d, q) && !(q <= name) && !(q <= Segment(name))
    ensures b <= d && Midway(q, name, b)
  {
    hide Segment;
    Leftmost(q, name, 0);
    b := FirstHit(q, name, 0);
    HitMidway(q, name);
  }

  /** A name that both begins and ends with the query scores below 1400 although it ends in it after a dot. */
  lemma RepeatedQueryLoses()
    ensures AfterDot("b.c.b.c", 3, "b.c") && Score("b.c", "b.c.b.c") == 1392
  {
    var name := "b.c.b.c";
    assert name[4..] == "b.c";
    SegmentOfSuffix(name, 3);
    SegmentIs("b.c");
    assert "b.c"[1] == '.';
    SegmentIs(name);
    hide LastDot; hide Segment;
    DottedQuery("b.c", name, 3);
    assert "b.c" <= name;
    NamePrefixScore("b.c", name);
  }
}
