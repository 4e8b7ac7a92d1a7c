/**
  Searching declarations by a signature pattern with holes: the literal
  prefilter against the compiled pattern (search/index.py
  `_type_pattern_to_regex`, `_type_literal_needles`, `search_type`).
 */
module TypeSearch {
  import opened Wrappers
  import opened Text
  import opened Names
  import opened Ranking

  // ---- Text ----

  predicate Id(c: char) { 'A' <= c <= 'Z' || 'a' <= c <= 'z' || '0' <= c <= '9' || c == '_' || c == '\'' }

  // Arrows are written "->".
  function Arrows(s: string): string {
    if |s| == 0 then ""
    else (if s[0] == '\U{2192}' || s[0] == '\U{27f6}' then "->" else [s[0]]) + Arrows(s[1..])
  }

  // `re.sub(r"\s+", "", s)`.
  function Compact(s: string): string {
    if |s| == 0 then "" else if Space(s[0]) then Compact(s[1..]) else [s[0]] + Compact(s[1..])
  }

  // `replace(" ", "")`.
  function Unspaced(s: string): string {
    if |s| == 0 then "" else if s[0] == ' ' then Unspaced(s[1..]) else [s[0]] + Unspaced(s[1..])
  }

  // `re.sub(r"\s+", " ", s)`, given whether a run of spaces is open.
  function Squeezed(s: string, inRun: bool): string {
    if |s| == 0 then ""
    else if Space(s[0]) then (if inRun then "" else " ") + Squeezed(s[1..], true)
    else [s[0]] + Squeezed(s[1..], false)
  }

  function Normal(signature: string): string { Squeezed(Arrows(signature), false) }

  // ---- Splitting a pattern at its wildcards ----

  function IdRun(s: string, i: nat): (n: nat)
    requires i <= |s|
    ensures i + n <= |s|
    decreases |s| - i
  {
    if i < |s| && Id(s[i]) then 1 + IdRun(s, i + 1) else 0
  }

  // The length of the wildcard that starts at i, or 0: `?name`, or a lone `_`.
  function WildAt(s: string, i: nat): (n: nat)
    requires i < |s|
    ensures i + n <= |s|
  {
    if s[i] == '?' && IdRun(s, i + 1) > 0 then 1 + IdRun(s, i + 1)
    else if s[i] == '_' && (i == 0 || !Id(s[i - 1])) && (i + 1 == |s| || !Id(s[i + 1])) then 1
    else 0
  }

  // `split`: literal, wildcard, literal, ..., literal.
  function Tokens(s: string, from: nat, i: nat): (t: seq<string>)
    requires from <= i <= |s|
    ensures |t| >= 1
    decreases |s| - i
  {
    if i == |s| then [s[from..]]
    else
      var n := WildAt(s, i);
      if n > 0 then [s[from..i], s[i..i + n]] + Tokens(s, i + n, i + n) else Tokens(s, from, i + 1)
  }

  // Both readers take a token for a wildcard by its first character.
  predicate Wild(token: string) { (|token| > 0 && token[0] == '?') || token == "_" }

  // ---- The compiled pattern ----

  datatype Item = Exactly(c: char) | Spaces | Hole
  datatype Part = HolePart | LiteralPart(text: string)

  function PartOf(token: string): seq<Part> {
    if token == "" then []
    else if Wild(token) then [HolePart]
    else if Strip(token) == "" then []
    else [LiteralPart(Strip(token))]
  }

  function Parts(tokens: seq<string>): seq<Part> {
    if |tokens| == 0 then [] else PartOf(tokens[0]) + Parts(tokens[1..])
  }

  // A space in a literal stands for any run of whitespace.
  function LiteralItems(text: string): seq<Item> {
    if |text| == 0 then [] else [if text[0] == ' ' then Spaces else Exactly(text[0])] + LiteralItems(text[1..])
  }

  function PartItems(part: Part): seq<Item> { if part.HolePart? then [Hole] else LiteralItems(part.text) }

  // Parts joined by optional whitespace.
  function Items(parts: seq<Part>): seq<Item> {
    if |parts| == 0 then []
    else if |parts| == 1 then PartItems(parts[0])
    else PartItems(parts[0]) + [Spaces] + Items(parts[1..])
  }

  // `_type_pattern_to_regex`: nothing to search for without a literal.
  function Compiled(pattern: string): Option<seq<Part>> {
    var parts := Parts(Tokens(Strip(Arrows(pattern)), 0, 0));
    if exists i | 0 <= i < |parts| :: parts[i].LiteralPart? then Some(parts) else None
  }

  // ---- Matching ----

  predicate Plain(c: char) { !Space(c) && c !in "()[]{}" }

  predicate Group(m: string, open: char, close: char, most: nat) {
    && 2 <= |m| <= most + 2 && m[0] == open && m[|m| - 1] == close
    && forall i | 0 < i < |m| - 1 :: m[i] != open && m[i] != close
  }

  // One bounded type atom.
  predicate Atom(m: string) {
    || (1 <= |m| <= 80 && forall i | 0 <= i < |m| :: Plain(m[i]))
    || Group(m, '(', ')', 120) || Group(m, '[', ']', 120) || Group(m, '{', '}', 80)
  }

  predicate Fits(item: Item, m: string) {
    match item
    case Exactly(c) => m == [c]
    case Spaces => forall i | 0 <= i < |m| :: Space(m[i])
    case Hole => Atom(m)
  }

  predicate Matches(items: seq<Item>, s: string) {
    if |items| == 0 then s == ""
    else exists k | 0 <= k <= |s| :: Fits(items[0], s[..k]) && Matches(items[1..], s[k..])
  }

  // `regex.search`.
  predicate Found(items: seq<Item>, s: string) {
    exists i, j | 0 <= i <= j <= |s| :: Matches(items, s[i..j])
  }

  // ---- The prefilter ----

  // `_type_literal_needles` reads the pattern without stripping it.
  function NeedleOf(token: string): seq<string> {
    if token == "" || Wild(token) || Compact(token) == "" then [] else [Compact(token)]
  }

  function Needles(tokens: seq<string>): seq<string> {
    if |tokens| == 0 then [] else NeedleOf(tokens[0]) + Needles(tokens[1..])
  }

  // The literals the compiled pattern really asks for.
  function Literals(parts: seq<Part>): seq<string> {
    if |parts| == 0 then []
    else (if parts[0].LiteralPart? then [Compact(parts[0].text)] else []) + Literals(parts[1..])
  }

  // ---- A match holds every literal ----

  lemma {:induction false} CompactAppend(a: string, b: string)
    ensures Compact(a + b) == Compact(a) + Compact(b)
  {
    if |a| > 0 {
      assert (a + b)[1..] == a[1..] + b;
      CompactAppend(a[1..], b);
    } else {
      assert a + b == b;
    }
  }

  lemma {:induction false} AllSpaces(m: string)
    requires forall i | 0 <= i < |m| :: Space(m[i])
    ensures Compact(m) == ""
  {
    if |m| > 0 { AllSpaces(m[1..]); }
  }

  lemma FitsReads(c: char, m: string)
    requires Fits(if c == ' ' then Spaces else Exactly(c), m)
    ensures Compact(m) == Compact([c])
  {
    assert [c][1..] == "";
    if c == ' ' { AllSpaces(m); }
  }

  // A literal matches only text that reads the same without whitespace.
  lemma {:induction false} LiteralMatch(text: string, m: string)
    requires Matches(LiteralItems(text), m)
    ensures Compact(m) == Compact(text)
  {
    hide Fits; hide Compact;
    if |text| > 0 {
      var items := LiteralItems(text);
      assert items[1..] == LiteralItems(text[1..]);
      var k :| 0 <= k <= |m| && Fits(items[0], m[..k]) && Matches(items[1..], m[k..]);
      FitsReads(text[0], m[..k]);
      LiteralMatch(text[1..], m[k..]);
      assert m == m[..k] + m[k..] && text == [text[0]] + text[1..];
      CompactAppend(m[..k], m[k..]);
      CompactAppend([text[0]], text[1..]);
    }
  }

  lemma {:induction false} MatchSplit(xs: seq<Item>, ys: seq<Item>, s: string) returns (k: nat)
    requires Matches(xs + ys, s)
    ensures k <= |s| && Matches(xs, s[..k]) && Matches(ys, s[k..])
  {
    if |xs| == 0 {
      assert xs + ys == ys && s[0..] == s && s[..0] == "";
      k := 0;
    } else {
      assert (xs + ys)[0] == xs[0] && (xs + ys)[1..] == xs[1..] + ys;
      var j :| 0 <= j <= |s| && Fits(xs[0], s[..j]) && Matches(xs[1..] + ys, s[j..]);
      var n := MatchSplit(xs[1..], ys, s[j..]);
      k := j + n;
      assert s[..k][..j] == s[..j] && s[..k][j..] == s[j..][..n] && s[k..] == s[j..][n..];
    }
  }

  // The text of each part of a matched pattern lies inside the match.
  lemma {:induction false} PartInside(parts: seq<Part>, s: string, n: nat) returns (a: nat, b: nat)
    requires Matches(Items(parts), s) && n < |parts|
    ensures a <= b <= |s| && Matches(PartItems(parts[n]), s[a..b])
    decreases |parts|
  {
    if |parts| == 1 {
      a, b := 0, |s|;
      assert s[0..|s|] == s;
    } else {
      var first, rest := PartItems(parts[0]) + [Spaces], Items(parts[1..]);
      var k := MatchSplit(first, rest, s);
      if n == 0 {
        var j := MatchSplit(PartItems(parts[0]), [Spaces], s[..k]);
        a, b := 0, j;
        assert s[..k][..j] == s[0..j];
      } else {
        var c, d := PartInside(parts[1..], s[k..], n - 1);
        a, b := k + c, k + d;
        assert s[k..][c..d] == s[a..b];
      }
    }
  }

  lemma BeginsAppend(a: string, b: string)
    ensures Begins(a, a + b)
  {
  }

  lemma CompactInside(s: string, a: nat, b: nat)
    requires a <= b <= |s|
    ensures Contains(Compact(s), Compact(s[a..b]))
  {
    hide Compact; hide Begins;
    assert s == s[..a] + s[a..b] + s[b..];
    CompactAppend(s[..a] + s[a..b], s[b..]);
    CompactAppend(s[..a], s[a..b]);
    assert Compact(s)[|Compact(s[..a])|..] == Compact(s[a..b]) + Compact(s[b..]);
    BeginsAppend(Compact(s[a..b]), Compact(s[b..]));
  }

  lemma {:induction false} SqueezedPlain(s: string, inRun: bool)
    ensures forall i | 0 <= i < |Squeezed(s, inRun)| :: Space(Squeezed(s, inRun)[i]) ==> Squeezed(s, inRun)[i] == ' '
  {
    if |s| > 0 { SqueezedPlain(s[1..], Space(s[0])); }
  }

  lemma {:induction false} UnspacedCompact(s: string)
    requires forall i | 0 <= i < |s| :: Space(s[i]) ==> s[i] == ' '
    ensures Unspaced(s) == Compact(s)
  {
    if |s| > 0 { UnspacedCompact(s[1..]); }
  }

  lemma {:induction false} LiteralAt(parts: seq<Part>, needle: string) returns (n: nat)
    requires needle in Literals(parts)
    ensures n < |parts| && parts[n].LiteralPart? && needle == Compact(parts[n].text)
  {
    if parts[0].LiteralPart? && needle == Compact(parts[0].text) {
      n := 0;
    } else {
      var m := LiteralAt(parts[1..], needle);
      n := m + 1;
    }
  }

  lemma TextItems(part: Part)
    requires part.LiteralPart?
    ensures PartItems(part) == LiteralItems(part.text)
  {
  }

  /** Whatever the compiled pattern matches contains each of its literals, whitespace aside. */
  lemma MatchHoldsLiterals(parts: seq<Part>, signature: string, needle: string)
    requires Found(Items(parts), Normal(signature)) && needle in Literals(parts)
    ensures Contains(Unspaced(Normal(signature)), needle)
  {
    hide Matches; hide Items; hide Compact; hide Squeezed; hide Arrows; hide Unspaced; hide Literals; hide Contains; hide Space;
    hide PartItems;
    var s := Normal(signature);
    var i, j :| 0 <= i <= j <= |s| && Matches(Items(parts), s[i..j]);
    var n := LiteralAt(parts, needle);
    var a, b := PartInside(parts, s[i..j], n);
    assert s[i..j][a..b] == s[i + a..i + b];
    TextItems(parts[n]);
    LiteralMatch(parts[n].text, s[i + a..i + b]);
    CompactInside(s, i + a, i + b);
    SqueezedPlain(Arrows(signature), false);
    UnspacedCompact(s);
  }

  // ---- Both readers see the same literals ----

  lemma {:induction false} CompactStrip(s: string)
    ensures Compact(LeftStrip(s)) == Compact(s)
  {
    if |s| > 0 && Space(s[0]) { CompactStrip(s[1..]); }
  }

  lemma {:induction false} CompactRight(s: string)
    ensures Compact(RightStrip(s)) == Compact(s)
  {
    var n := |s| - 1;
    if |s| > 0 && Space(s[n]) {
      CompactRight(s[..n]);
      assert s == s[..n] + [s[n]];
      CompactAppend(s[..n], [s[n]]);
    }
  }

  lemma {:induction false} EmptyLeft(s: string)
    ensures Compact(s) == "" <==> LeftStrip(s) == ""
  {
    if |s| > 0 && Space(s[0]) { EmptyLeft(s[1..]); }
  }

  lemma RightKeeps(s: string)
    requires |s| > 0 && !Space(s[0])
    ensures RightStrip(s) != ""
    decreases |s|
  {
    if Space(s[|s| - 1]) { RightKeeps(s[..|s| - 1]); }
  }

  lemma {:induction false} LeftFirst(s: string)
    ensures LeftStrip(s) != "" ==> !Space(LeftStrip(s)[0])
  {
    if |s| > 0 && Space(s[0]) { LeftFirst(s[1..]); }
  }

  lemma StripCompact(s: string)
    ensures Compact(Strip(s)) == Compact(s) && (Strip(s) == "" <==> Compact(s) == "")
  {
    CompactStrip(s);
    CompactRight(LeftStrip(s));
    EmptyLeft(s);
    LeftFirst(s);
    if LeftStrip(s) != "" { RightKeeps(LeftStrip(s)); }
  }

  // On the same tokens the needles are the compiled literals.
  lemma {:induction false} NeedlesLiterals(tokens: seq<string>)
    ensures Literals(Parts(tokens)) == Needles(tokens)
  {
    if |tokens| > 0 {
      NeedlesLiterals(tokens[1..]);
      StripCompact(tokens[0]);
      LiteralsAppend(PartOf(tokens[0]), Parts(tokens[1..]));
    }
  }

  lemma LiteralsAppend(a: seq<Part>, b: seq<Part>)
    requires |a| <= 1
    ensures Literals(a + b) == (if |a| == 1 && a[0].LiteralPart? then [Compact(a[0].text)] else []) + Literals(b)
  {
    if |a| == 1 { assert (a + b)[1..] == b; } else { assert a + b == b; }
  }

  // ---- Whitespace at either end ----

  lemma {:induction false} RunRight(s: string, c: char, i: nat)
    requires Space(c) && i <= |s|
    ensures IdRun(s + [c], i) == IdRun(s, i)
    decreases |s| - i
  {
    if i < |s| { RunRight(s, c, i + 1); }
  }

  lemma WildRight(s: string, c: char, i: nat)
    requires Space(c) && i < |s|
    ensures WildAt(s + [c], i) == WildAt(s, i)
  {
    RunRight(s, c, i + 1);
  }

  lemma SpaceTame(s: string, i: nat)
    requires i < |s| && Space(s[i])
    ensures WildAt(s, i) == 0
  {
  }

  lemma {:induction false} TokensRight(s: string, c: char, from: nat, i: nat)
    requires Space(c) && from <= i <= |s|
    ensures var t := Tokens(s, from, i);
            Tokens(s + [c], from, i) == t[..|t| - 1] + [t[|t| - 1] + [c]]
    decreases |s| - i
  {
    hide WildAt; hide Space;
    if i == |s| {
      SpaceTame(s + [c], i);
      assert (s + [c])[from..] == s[from..] + [c];
    } else {
      WildRight(s, c, i);
      var n := WildAt(s, i);
      if n > 0 {
        TokensRight(s, c, i + n, i + n);
        assert (s + [c])[from..i] == s[from..i] && (s + [c])[i..i + n] == s[i..i + n];
      } else {
        TokensRight(s, c, from, i + 1);
      }
    }
  }

  lemma {:induction false} RunLeft(c: char, s: string, i: nat)
    requires i <= |s|
    ensures IdRun([c] + s, i + 1) == IdRun(s, i)
    decreases |s| - i
  {
    if i < |s| { RunLeft(c, s, i + 1); }
  }

  lemma WildLeft(c: char, s: string, i: nat)
    requires Space(c) && i < |s|
    ensures WildAt([c] + s, i + 1) == WildAt(s, i)
  {
    RunLeft(c, s, i + 1);
  }

  lemma {:induction false} TokensShift(c: char, s: string, from: nat, i: nat)
    requires Space(c) && from <= i <= |s|
    ensures Tokens([c] + s, from + 1, i + 1) == Tokens(s, from, i)
    decreases |s| - i
  {
    hide WildAt; hide Space;
    var p := [c] + s;
    if i == |s| {
      assert p[from + 1..] == s[from..];
    } else {
      WildLeft(c, s, i);
      var n := WildAt(s, i);
      if n > 0 {
        TokensShift(c, s, i + n, i + n);
        assert p[from + 1..i + 1] == s[from..i] && p[i + 1..i + 1 + n] == s[i..i + n];
      } else {
        TokensShift(c, s, from, i + 1);
      }
    }
  }

  lemma {:induction false} TokensLead(c: char, s: string, i: nat)
    requires Space(c) && i <= |s|
    ensures var t := Tokens(s, 0, i);
            Tokens([c] + s, 0, i + 1) == [[c] + t[0]] + t[1..]
    decreases |s| - i
  {
    hide WildAt; hide Space;
    var p := [c] + s;
    if i == |s| {
      assert p[0..] == [c] + s[0..];
    } else {
      WildLeft(c, s, i);
      var n := WildAt(s, i);
      if n > 0 {
        TokensShift(c, s, i + n, i + n);
        assert p[0..i + 1] == [c] + s[0..i] && p[i + 1..i + 1 + n] == s[i..i + n];
      } else {
        TokensLead(c, s, i + 1);
      }
    }
  }

  // ---- No literal is a lone underscore ----

  lemma {:induction false} RunEnds(s: string, i: nat)
    requires i <= |s|
    ensures i + IdRun(s, i) == |s| || !Id(s[i + IdRun(s, i)])
    decreases |s| - i
  {
    if i < |s| { RunEnds(s, i + 1); }
  }

  ghost predicate Clear(s: string, from: nat) { from == 0 || from >= |s| || !Id(s[from]) }

  lemma WildEnds(s: string, i: nat)
    requires i < |s| && WildAt(s, i) > 0
    ensures Clear(s, i + WildAt(s, i))
  {
    RunEnds(s, i + 1);
  }

  lemma LoneWild(s: string, from: nat, i: nat)
    requires i == from + 1 <= |s| && s[from] == '_' && Clear(s, from) && (i == |s| || WildAt(s, i) > 0)
    ensures WildAt(s, from) > 0
  {
  }

  lemma NotLone(s: string, from: nat, i: nat)
    requires from <= i <= |s| && Clear(s, from) && (i == |s| || WildAt(s, i) > 0)
    requires forall k | from <= k < i :: WildAt(s, k) == 0
    ensures s[from..i] != "_"
  {
    if s[from..i] == "_" {
      assert i == from + 1 && s[from] == s[from..i][0];
      LoneWild(s, from, i);
    }
  }

  lemma {:induction false} NoLoneToken(s: string, from: nat, i: nat)
    requires from <= i <= |s| && Clear(s, from) && forall k | from <= k < i :: WildAt(s, k) == 0
    ensures var t := Tokens(s, from, i); t[0] != "_" && t[|t| - 1] != "_"
    decreases |s| - i
  {
    hide WildAt; hide Clear;
    if i == |s| {
      NotLone(s, from, i);
      assert s[from..i] == s[from..];
    } else if WildAt(s, i) > 0 {
      NotLone(s, from, i);
      WildEnds(s, i);
      NoLoneToken(s, i + WildAt(s, i), i + WildAt(s, i));
    } else {
      NoLoneToken(s, from, i + 1);
    }
  }

  lemma NoLone(s: string)
    ensures var t := Tokens(s, 0, 0); t[0] != "_" && t[|t| - 1] != "_"
  {
    NoLoneToken(s, 0, 0);
  }

  // ---- The needles of a padded pattern ----

  lemma {:induction false} NeedlesAppend(a: seq<string>, b: seq<string>)
    ensures Needles(a + b) == Needles(a) + Needles(b)
  {
    if |a| > 0 {
      assert (a + b)[1..] == a[1..] + b;
      NeedlesAppend(a[1..], b);
    } else {
      assert a + b == b;
    }
  }

  lemma OneNeedle(x: string)
    ensures Needles([x]) == NeedleOf(x)
  {
    assert [x][1..] == [];
  }

  lemma NeedleOfLast(x: string, c: char)
    requires Space(c) && x != "_"
    ensures NeedleOf(x + [c]) == NeedleOf(x)
  {
    CompactAppend(x, [c]);
    assert [c][1..] == "" && Compact([c]) == "";
    assert Compact(x) + "" == Compact(x);
    if x != "" { assert (x + [c])[0] == x[0] && |x + [c]| > |"_"|; }
  }

  lemma NeedlesRight(s: string, c: char)
    requires Space(c)
    ensures Needles(Tokens(s + [c], 0, 0)) == Needles(Tokens(s, 0, 0))
  {
    hide Tokens; hide Needles; hide NeedleOf; hide Space;
    var t := Tokens(s, 0, 0);
    var n := |t| - 1;
    TokensRight(s, c, 0, 0);
    NoLone(s);
    NeedleOfLast(t[n], c);
    OneNeedle(t[n]);
    OneNeedle(t[n] + [c]);
    assert t == t[..n] + [t[n]];
    NeedlesAppend(t[..n], [t[n]]);
    NeedlesAppend(t[..n], [t[n] + [c]]);
  }

  lemma {:induction false} NeedlesRightStrip(s: string)
    ensures Needles(Tokens(RightStrip(s), 0, 0)) == Needles(Tokens(s, 0, 0))
    decreases |s|
  {
    hide Tokens; hide Needles;
    var n := |s| - 1;
    if |s| > 0 && Space(s[n]) {
      NeedlesRightStrip(s[..n]);
      assert s == s[..n] + [s[n]];
      NeedlesRight(s[..n], s[n]);
    }
  }

  // A question mark that starts no wildcard.
  predicate BareMark(s: string) { |s| > 0 && s[0] == '?' && !(|s| > 1 && Id(s[1])) }

  lemma {:induction false} FirstChar(s: string, i: nat)
    requires i <= |s|
    ensures var t := Tokens(s, 0, i); |t[0]| > 0 ==> |s| > 0 && t[0][0] == s[0]
    ensures i > 0 ==> |Tokens(s, 0, i)[0]| > 0
    decreases |s| - i
  {
    hide WildAt;
    if i < |s| && WildAt(s, i) == 0 { FirstChar(s, i + 1); }
  }

  lemma FirstToken(s: string)
    ensures var f := Tokens(s, 0, 0)[0];
            && (BareMark(s) <==> |f| > 0 && f[0] == '?')
            && (|s| > 0 && Space(s[0]) ==> |f| > 0 && f[0] == s[0])
  {
    FirstChar(s, 0);
    if |s| > 0 && WildAt(s, 0) == 0 { FirstChar(s, 1); }
  }

  lemma NeedleOfFirst(x: string, c: char)
    requires Space(c) && x != "_"
    ensures NeedleOf([c] + x) == (if |x| > 0 && x[0] == '?' then [Compact(x)] else []) + NeedleOf(x)
  {
    CompactAppend([c], x);
    assert [c][1..] == "" && Compact([c]) == "";
    if |x| > 0 && x[0] == '?' { MarkStays(x); }
  }

  lemma MarkStays(x: string)
    requires |x| > 0 && x[0] == '?'
    ensures Compact(x) != ""
  {
  }

  lemma NeedlesLead(c: char, s: string)
    requires Space(c)
    ensures Needles(Tokens([c] + s, 0, 0)) ==
            (if BareMark(s) then [Compact(Tokens(s, 0, 0)[0])] else []) + Needles(Tokens(s, 0, 0))
  {
    hide Needles; hide NeedleOf; hide Compact; hide BareMark;
    var t := Tokens(s, 0, 0);
    SpaceTame([c] + s, 0);
    LeadFacts(c, s);
    NoLone(s);
    FirstToken(s);
    NeedleOfFirst(t[0], c);
    OneNeedle(t[0]);
    OneNeedle([c] + t[0]);
    assert t == [t[0]] + t[1..];
    NeedlesAppend([t[0]], t[1..]);
    NeedlesAppend([[c] + t[0]], t[1..]);
  }

  lemma LeadFacts(c: char, s: string)
    requires Space(c)
    ensures Tokens([c] + s, 0, 0) == [[c] + Tokens(s, 0, 0)[0]] + Tokens(s, 0, 0)[1..]
  {
    hide WildAt; hide Space;
    SpaceTame([c] + s, 0);
    TokensLead(c, s, 0);
  }

  // ---- The theorem ----

  // Leading whitespace in front of a bare question mark: the stripped reader
  // takes the literal for a hole, the other does not.
  predicate Mistaken(s: string) { |s| > 0 && Space(s[0]) && BareMark(LeftStrip(s)) }

  lemma {:induction false} NeedlesLeftStrip(s: string)
    ensures Needles(Tokens(s, 0, 0)) ==
            (if Mistaken(s) then [Compact(Tokens(LeftStrip(s), 0, 0)[0])] else []) + Needles(Tokens(LeftStrip(s), 0, 0))
  {
    hide Needles; hide Tokens; hide Compact;
    if |s| > 0 && Space(s[0]) {
      assert s == [s[0]] + s[1..];
      NeedlesLead(s[0], s[1..]);
      NeedlesLeftStrip(s[1..]);
    }
  }

  /** The prefilter asks for exactly the literals of the compiled pattern, unless the pattern is mistaken. */
  lemma NeedlesAreLiterals(pattern: string)
    ensures Needles(Tokens(Arrows(pattern), 0, 0)) == Literals(Parts(Tokens(Strip(Arrows(pattern)), 0, 0)))
            <==> !Mistaken(Arrows(pattern))
  {
    hide Needles; hide Tokens; hide Compact; hide Literals; hide Parts; hide Mistaken; hide Arrows;
    var s := Arrows(pattern);
    NeedlesLeftStrip(s);
    NeedlesRightStrip(LeftStrip(s));
    NeedlesLiterals(Tokens(Strip(s), 0, 0));
    if Mistaken(s) {
      assert |Needles(Tokens(s, 0, 0))| == 1 + |Needles(Tokens(LeftStrip(s), 0, 0))|;
    }
  }

  function PatternTokens(pattern: string): seq<string> { Tokens(Arrows(pattern), 0, 0) }

  // Every needle occurs in the signature, whitespace aside.
  predicate Passes(pattern: string, signature: string) {
    var needles := Needles(PatternTokens(pattern));
    forall i | 0 <= i < |needles| :: Holds(Unspaced(Normal(signature)), needles[i])
  }

  // The literal that the prefilter asks for although the compiled pattern reads it as a hole.
  function Surplus(pattern: string): Option<string> {
    var s := Arrows(pattern);
    if Mistaken(s) then Some(Compact(Tokens(LeftStrip(s), 0, 0)[0])) else None
  }

  predicate HasSurplus(pattern: string, signature: string) {
    Surplus(pattern).Some? ==> Holds(Unspaced(Normal(signature)), Surplus(pattern).value)
  }

  // The needles are the compiled literals, after the surplus one if there is any.
  lemma NeedlesSplit(pattern: string)
    ensures Needles(PatternTokens(pattern)) ==
            (if Surplus(pattern).Some? then [Surplus(pattern).value] else [])
            + Literals(Parts(Tokens(Strip(Arrows(pattern)), 0, 0)))
  {
    hide Needles; hide Tokens; hide Compact; hide Literals; hide Parts; hide Mistaken; hide Arrows;
    var s := Arrows(pattern);
    NeedlesLeftStrip(s);
    NeedlesRightStrip(LeftStrip(s));
    NeedlesLiterals(Tokens(Strip(s), 0, 0));
  }

  // A pattern that starts with text is never mistaken.
  lemma UnpaddedRight(pattern: string)
    requires pattern == "" || !Space(pattern[0])
    ensures !Mistaken(Arrows(pattern))
  {
  }

  /**
    Exactly which matches the prefilter keeps: those whose signature happens to
    hold the surplus needle. There is one only for a mistaken pattern, so every
    match of any other pattern is kept, and of any pattern that does not start
    with whitespace.
   */
  lemma PrefilterKeepsMatches(pattern: string, signature: string)
    requires Compiled(pattern).Some? && Found(Items(Compiled(pattern).value), Normal(signature))
    ensures Passes(pattern, signature) <==> HasSurplus(pattern, signature)
    ensures !Mistaken(Arrows(pattern)) ==> Passes(pattern, signature)
    ensures pattern == "" || !Space(pattern[0]) ==> Passes(pattern, signature)
  {
    hide Needles; hide Tokens; hide Literals; hide Parts; hide Mistaken; hide Arrows; hide Items; hide Found; hide Normal;
    hide Unspaced; hide Holds; hide Contains; hide Strip; hide Compact;
    NeedlesSplit(pattern);
    if pattern == "" || !Space(pattern[0]) { UnpaddedRight(pattern); }
    var needles, parts := Needles(PatternTokens(pattern)), Compiled(pattern).value;
    var literals := Literals(parts);
    var text := Unspaced(Normal(signature));
    forall needle | needle in literals ensures Holds(text, needle) {
      MatchHoldsLiterals(parts, signature, needle);
      HoldsContains(text, needle);
    }
    if HasSurplus(pattern, signature) {
      forall i | 0 <= i < |needles| ensures Holds(text, needles[i]) {
        if i > 0 || Surplus(pattern).None? { assert needles[i] in literals; }
      }
    } else {
      assert needles[0] == Surplus(pattern).value;
    }
  }

  // ---- The search ----

  datatype Signed = Signed(signature: string, library: nat)

  // Shorter signatures rank higher.
  function SignedHit(all: seq<Signed>, idx: nat): Hit
    requires idx < |all|
  {
    Hit(idx, -|Normal(all[idx].signature)|, 0)
  }

  // The simple form: run the compiled pattern on every signature, and ask for
  // the surplus literal of a mistaken pattern.
  function Matched(all: seq<Signed>, parts: seq<Part>, surplus: Option<string>, library: Option<nat>, n: nat): seq<Hit>
    requires n <= |all|
  {
    if n == 0 then []
    else
      var rest := Matched(all, parts, surplus, library, n - 1);
      var d := all[n - 1];
      if (library.None? || d.library == library.value) && Found(Items(parts), Normal(d.signature))
         && (surplus.Some? ==> Holds(Unspaced(Normal(d.signature)), surplus.value))
      then rest + [SignedHit(all, n - 1)] else rest
  }

  // Which declarations match, in their order, scored by the length of the signature.
  lemma {:induction false} MatchedHits(all: seq<Signed>, parts: seq<Part>, surplus: Option<string>, library: Option<nat>, n: nat)
    requires n <= |all|
    ensures Ascending(Matched(all, parts, surplus, library, n))
    ensures forall h :: h in Matched(all, parts, surplus, library, n) <==>
              && h.idx < n && h.score == -|Normal(all[h.idx].signature)| && h.length == 0
              && (library.Some? ==> all[h.idx].library == library.value)
              && Found(Items(parts), Normal(all[h.idx].signature))
              && (surplus.Some? ==> Holds(Unspaced(Normal(all[h.idx].signature)), surplus.value))
  {
    hide Found; hide Items; hide Normal; hide Holds; hide Unspaced;
    if n > 0 {
      MatchedHits(all, parts, surplus, library, n - 1);
      var rest := Matched(all, parts, surplus, library, n - 1);
      forall i | 0 <= i < |rest| ensures rest[i].idx < n - 1 { assert rest[i] in rest; }
    }
  }

  /**
    The filtered search returns what matching every signature does; a mistaken
    pattern loses exactly the matches without its surplus literal.
   */
  method SearchType(all: seq<Signed>, pattern: string, limit: nat, library: Option<nat>) returns (hits: seq<Hit>)
    ensures hits == if Compiled(pattern).None? then []
                    else Top(Matched(all, Compiled(pattern).value, Surplus(pattern), library, |all|), limit)
    ensures !Mistaken(Arrows(pattern)) && Compiled(pattern).Some? ==>
              hits == Top(Matched(all, Compiled(pattern).value, None, library, |all|), limit)
  {
    hide Compiled; hide Passes; hide Arrows; hide Found; hide Items; hide Normal; hide Rank; hide Mistaken; hide Compact; hide Tokens;
    hide Holds; hide Unspaced;
    var compiled := Compiled(pattern);
    if compiled.None? { return []; }
    var found: seq<Hit> := [];
    for idx := 0 to |all|
      invariant found == Matched(all, compiled.value, Surplus(pattern), library, idx)
    {
      var d := all[idx];
      if library.Some? && d.library != library.value { continue; }
      if Found(Items(compiled.value), Normal(d.signature)) { PrefilterKeepsMatches(pattern, d.signature); }
      if !Passes(pattern, d.signature) { continue; }
      if Found(Items(compiled.value), Normal(d.signature)) { found := found + [SignedHit(all, idx)]; }
    }
    hits := Top(found, limit);
  }

  // ---- Where the prefilter drops a match ----

  const PADDED := " ?(?a b"
  const STRIPPED := "?(?a b"

  lemma {:induction false} NoArrows(s: string)
    requires forall i | 0 <= i < |s| :: s[i] != '\U{2192}' && s[i] != '\U{27f6}'
    ensures Arrows(s) == s
  {
    if |s| > 0 {
      NoArrows(s[1..]);
      assert s == [s[0]] + s[1..];
    }
  }

  lemma StrippedTokens()
    ensures Tokens(STRIPPED, 0, 0) == ["?(", "?a", " b"]
  {
    var s := STRIPPED;
    assert IdRun(s, 1) == 0 && IdRun(s, 4) == 0 && IdRun(s, 3) == 1;
    assert WildAt(s, 0) == 0 && WildAt(s, 1) == 0 && WildAt(s, 2) == 2 && WildAt(s, 4) == 0 && WildAt(s, 5) == 0;
    assert s[0..2] == "?(" && s[2..4] == "?a" && s[4..] == " b";
    assert Tokens(s, 4, 6) == [" b"];
    assert Tokens(s, 4, 4) == Tokens(s, 4, 5) == [" b"];
    assert Tokens(s, 0, 0) == Tokens(s, 0, 1) == Tokens(s, 0, 2);
  }

  lemma StripStep(s: string)
    requires |s| > 0 && Space(s[0])
    ensures LeftStrip(s) == LeftStrip(s[1..])
  {
  }

  lemma StripStop(s: string)
    requires |s| > 0 && !Space(s[0]) && !Space(s[|s| - 1])
    ensures LeftStrip(s) == s && RightStrip(s) == s
  {
  }

  lemma PaddedReads()
    ensures Arrows(PADDED) == PADDED && LeftStrip(PADDED) == Strip(PADDED) == STRIPPED && Mistaken(PADDED)
  {
    hide Arrows; hide LeftStrip; hide RightStrip;
    NoArrows(PADDED);
    assert PADDED[1..] == STRIPPED;
    StripStep(PADDED);
    StripStop(STRIPPED);
  }

  lemma PaddedParts()
    ensures Compiled(PADDED) == Some([HolePart, HolePart, LiteralPart("b")])
  {
    hide Tokens; hide Arrows;
    PaddedReads();
    StrippedTokens();
    var t := ["?(", "?a", " b"];
    assert t[1..] == ["?a", " b"] && t[1..][1..] == [" b"] && t[1..][1..][1..] == [];
    assert " b"[1..] == "b" && LeftStrip(" b") == LeftStrip("b") == "b" && RightStrip("b") == "b";
    assert Parts([" b"]) == [LiteralPart("b")];
    assert Parts(["?a", " b"]) == [HolePart, LiteralPart("b")];
    assert Parts(t) == [HolePart, HolePart, LiteralPart("b")];
    assert Parts(t)[2].LiteralPart?;
  }

  lemma PaddedItems()
    ensures Items([HolePart, HolePart, LiteralPart("b")]) == [Hole, Spaces, Hole, Spaces, Exactly('b')]
  {
    var p := [HolePart, HolePart, LiteralPart("b")];
    assert p[1..] == [HolePart, LiteralPart("b")] && p[1..][1..] == [LiteralPart("b")];
    assert "b"[1..] == "" && LiteralItems("b") == [Exactly('b')];
  }

  lemma MatchCons(items: seq<Item>, m: string, s: string)
    requires |items| > 0 && |m| <= |s| && s[..|m|] == m && Fits(items[0], m) && Matches(items[1..], s[|m|..])
    ensures Matches(items, s)
  {
    hide Fits;
  }

  lemma PaddedMatches()
    ensures Found(Items([HolePart, HolePart, LiteralPart("b")]), "xyb")
  {
    hide Matches; hide Items;
    PaddedItems();
    NoItems();
    var items := [Hole, Spaces, Hole, Spaces, Exactly('b')];
    assert "xyb"[..1] == "x" && "xyb"[1..] == "yb" && "yb"[..0] == "" && "yb"[0..] == "yb" && "yb"[..1] == "y" && "yb"[1..] == "b";
    assert "b"[..0] == "" && "b"[0..] == "b" && "b"[..1] == "b" && "b"[1..] == "";
    assert items[1..] == [Spaces, Hole, Spaces, Exactly('b')] && items[2..] == [Hole, Spaces, Exactly('b')];
    assert items[1..][1..] == items[2..] && items[2..][1..] == [Spaces, Exactly('b')] && [Spaces, Exactly('b')][1..] == [Exactly('b')];
    assert [Exactly('b')][1..] == [];
    MatchCons([Exactly('b')], "b", "b");
    MatchCons([Spaces, Exactly('b')], "", "b");
    MatchCons(items[2..], "y", "yb");
    MatchCons(items[1..], "", "yb");
    MatchCons(items, "x", "xyb");
    assert "xyb"[0..3] == "xyb";
  }

  lemma NoItems()
    ensures Matches([], "")
  {
  }

  lemma PlainSignature()
    ensures Normal("xyb") == "xyb" && Unspaced("xyb") == "xyb" && !Holds("xyb", "?(")
  {
    NoArrows("xyb");
    assert "xyb"[1..] == "yb" && "yb"[1..] == "b" && "b"[1..] == "";
    assert Squeezed("b", false) == "b" && Squeezed("yb", false) == "yb";
    assert Unspaced("b") == "b" && Unspaced("yb") == "yb";
    assert !Holds("", "?(") && !Holds("b", "?(") && !Holds("yb", "?(");
  }

  lemma PaddedNeedle()
    ensures |Needles(PatternTokens(PADDED))| > 0 && Needles(PatternTokens(PADDED))[0] == "?("
  {
    hide Tokens; hide Needles; hide Arrows; hide Mistaken; hide LeftStrip;
    PaddedReads();
    StrippedTokens();
    NeedlesLeftStrip(PADDED);
    assert "?("[1..] == "(" && "("[1..] == "" && Compact("(") == "(" && Compact("?(") == "?(";
  }

  /** A padded bare mark: the compiled pattern matches, the prefilter refuses. */
  lemma MistakenDrops()
    ensures Mistaken(Arrows(PADDED)) && Compiled(PADDED).Some?
    ensures Found(Items(Compiled(PADDED).value), Normal("xyb")) && !Passes(PADDED, "xyb")
  {
    hide Tokens; hide Needles; hide Arrows; hide Mistaken; hide Items; hide Found; hide Compiled; hide Normal; hide Unspaced; hide Holds;
    hide PatternTokens;
    PaddedReads();
    PaddedParts();
    PaddedMatches();
    PlainSignature();
    PaddedNeedle();
  }
}
