/**
  What a compiled type pattern finds (search/index.py `_type_pattern_to_regex`,
  `_normalize_sig`): filling its holes with type atoms and its gaps with any
  whitespace always gives a signature that is found.
 */
module Signatures {
  import opened Text
  import opened TypeSearch

  // ---- Type atoms ----

  /** One to eighty characters that are neither whitespace nor brackets fill a hole; so many and no more. */
  lemma PlainAtoms(m: string)
    requires forall i | 0 <= i < |m| :: m[i] !in " \t\n\r\U{0b}\U{0c}()[]{}"
    ensures Atom(m) <==> 1 <= |m| <= 80
  {
  }

  /** A bracket group fills a hole exactly when its inside is short enough and holds no bracket of its kind. */
  lemma GroupAtoms(inside: string)
    ensures Atom("(" + inside + ")") <==> |inside| <= 120 && '(' !in inside && ')' !in inside
    ensures Atom("[" + inside + "]") <==> |inside| <= 120 && '[' !in inside && ']' !in inside
    ensures Atom("{" + inside + "}") <==> |inside| <= 80 && '{' !in inside && '}' !in inside
  {
    GroupOf(inside, '(', ')', 120);
    GroupOf(inside, '[', ']', 120);
    GroupOf(inside, '{', '}', 80);
    assert ("(" + inside + ")")[0] == '(' && ("[" + inside + "]")[0] == '[' && ("{" + inside + "}")[0] == '{';
  }

  lemma GroupOf(inside: string, open: char, close: char, most: nat)
    ensures Group([open] + inside + [close], open, close, most) <==> |inside| <= most && open !in inside && close !in inside
  {
    var m := [open] + inside + [close];
    assert forall i | 0 < i < |m| - 1 :: m[i] == inside[i - 1];
    if Group(m, open, close, most) {
      forall i | 0 <= i < |inside| ensures inside[i] != open && inside[i] != close { assert m[i + 1] == inside[i]; }
    }
  }

  // ---- Filling a pattern ----

  // A word for each hole, whitespace between parts, and whitespace for each space of a literal.
  datatype Filling = Filling(word: nat -> string, gap: nat -> string, stretch: nat -> nat -> string)

  ghost predicate Blank(m: string) { forall i | 0 <= i < |m| :: Space(m[i]) }

  ghost predicate Filled(parts: seq<Part>, f: Filling) {
    && (forall i | 0 <= i < |parts| && parts[i].HolePart? :: Atom(Arrows(f.word(i))))
    && (forall i: nat :: Blank(f.gap(i)))
    && (forall i: nat, k: nat :: Blank(f.stretch(i)(k)))
  }

  function Stretched(text: string, spaces: nat -> string, i: nat): string
    requires i <= |text|
    decreases |text| - i
  {
    if i == |text| then ""
    else (if text[i] == ' ' then spaces(i) else [text[i]]) + Stretched(text, spaces, i + 1)
  }

  function Piece(part: Part, f: Filling, i: nat): string {
    if part.HolePart? then f.word(i) else Stretched(part.text, f.stretch(i), 0)
  }

  function Written(parts: seq<Part>, f: Filling, i: nat): string
    requires i <= |parts|
    decreases |parts| - i
  {
    if i == |parts| then ""
    else Piece(parts[i], f, i) + (if i + 1 < |parts| then f.gap(i) else "") + Written(parts, f, i + 1)
  }

  predicate Arrow(c: char) { c == '\U{2192}' || c == '\U{27f6}' }

  // ---- It matches ----

  lemma {:induction false} ArrowsAppend(a: string, b: string)
    ensures Arrows(a + b) == Arrows(a) + Arrows(b)
  {
    if |a| > 0 {
      assert (a + b)[1..] == a[1..] + b;
      ArrowsAppend(a[1..], b);
    } else {
      assert a + b == b;
    }
  }

  lemma BlankArrows(m: string)
    requires Blank(m)
    ensures Arrows(m) == m
  {
    NoArrows(m);
  }

  lemma {:induction false} MatchJoin(xs: seq<Item>, ys: seq<Item>, a: string, b: string)
    requires Matches(xs, a) && Matches(ys, b)
    ensures Matches(xs + ys, a + b)
  {
    hide Fits;
    if |xs| == 0 {
      assert xs + ys == ys && a + b == b;
    } else {
      var k :| 0 <= k <= |a| && Fits(xs[0], a[..k]) && Matches(xs[1..], a[k..]);
      MatchJoin(xs[1..], ys, a[k..], b);
      assert (xs + ys)[0] == xs[0] && (xs + ys)[1..] == xs[1..] + ys && (a + b)[..k] == a[..k] && (a + b)[k..] == a[k..] + b;
      MatchCons(xs + ys, a[..k], a + b);
    }
  }

  lemma MatchOne(item: Item, m: string)
    requires Fits(item, m)
    ensures Matches([item], m)
  {
    assert m[..|m|] == m && m[|m|..] == "" && [item][1..] == [];
    assert Matches([], "");
  }

  lemma {:induction false} LiteralWritten(text: string, spaces: nat -> string, i: nat)
    requires i <= |text| && (forall k: nat :: Blank(spaces(k))) && forall c | c in text :: !Arrow(c)
    ensures Matches(LiteralItems(text[i..]), Arrows(Stretched(text, spaces, i)))
    decreases |text| - i
  {
    if i < |text| {
      var m := if text[i] == ' ' then spaces(i) else [text[i]];
      var item := if text[i] == ' ' then Spaces else Exactly(text[i]);
      LiteralWritten(text, spaces, i + 1);
      assert text[i..][0] == text[i] && text[i..][1..] == text[i + 1..];
      assert LiteralItems(text[i..]) == [item] + LiteralItems(text[i + 1..]);
      ArrowsAppend(m, Stretched(text, spaces, i + 1));
      assert text[i] in text && !Arrow(text[i]);
      assert Arrows(m) == m by { if text[i] == ' ' { BlankArrows(m); } else { NoArrows(m); } }
      MatchOne(item, m);
      MatchJoin([item], LiteralItems(text[i + 1..]), m, Arrows(Stretched(text, spaces, i + 1)));
    }
  }

  // The literals hold no arrow character.
  ghost predicate Asciied(parts: seq<Part>) {
    forall i | 0 <= i < |parts| && parts[i].LiteralPart? :: forall c | c in parts[i].text :: !Arrow(c)
  }

  lemma PieceMatches(parts: seq<Part>, f: Filling, i: nat)
    requires i < |parts| && Filled(parts, f) && Asciied(parts)
    ensures Matches(PartItems(parts[i]), Arrows(Piece(parts[i], f, i)))
  {
    hide Matches; hide Arrows; hide Atom;
    if parts[i].HolePart? {
      MatchOne(Hole, Arrows(f.word(i)));
    } else {
      LiteralWritten(parts[i].text, f.stretch(i), 0);
      assert parts[i].text[0..] == parts[i].text;
    }
  }

  lemma {:induction false} WrittenMatches(parts: seq<Part>, f: Filling, i: nat)
    requires i <= |parts| && Filled(parts, f) && Asciied(parts)
    ensures Matches(Items(parts[i..]), Arrows(Written(parts, f, i)))
    decreases |parts| - i
  {
    hide Matches; hide Arrows; hide PartItems; hide Piece; hide Asciied;
    if i == |parts| {
      NoItems();
      EmptyArrows();
    } else {
      PieceMatches(parts, f, i);
      WrittenMatches(parts, f, i + 1);
      var rest := parts[i..];
      assert rest[0] == parts[i] && rest[1..] == parts[i + 1..];
      var piece, tail := Piece(parts[i], f, i), Written(parts, f, i + 1);
      if i + 1 < |parts| {
        var gap := f.gap(i);
        ArrowsAppend(piece + gap, tail);
        ArrowsAppend(piece, gap);
        BlankArrows(gap);
        MatchOne(Spaces, gap);
        MatchJoin(PartItems(parts[i]), [Spaces], Arrows(piece), gap);
        MatchJoin(PartItems(parts[i]) + [Spaces], Items(parts[i + 1..]), Arrows(piece) + gap, Arrows(tail));
      } else {
        assert piece + "" + tail == piece;
      }
    }
  }

  lemma EmptyArrows()
    ensures Arrows("") == ""
  {
  }

  // ---- Normalising a signature ----

  // Whether a run of whitespace is open after the text.
  function RunAfter(s: string, inRun: bool): bool { if s == "" then inRun else Space(s[|s| - 1]) }

  lemma {:induction false} SqueezeAppend(a: string, b: string, inRun: bool)
    ensures Squeezed(a + b, inRun) == Squeezed(a, inRun) + Squeezed(b, RunAfter(a, inRun))
  {
    if |a| > 0 {
      assert (a + b)[1..] == a[1..] + b;
      SqueezeAppend(a[1..], b, Space(a[0]));
    } else {
      assert a + b == b;
    }
  }

  lemma {:induction false} SqueezeShrinks(s: string, inRun: bool)
    ensures |Squeezed(s, inRun)| <= |s|
    ensures forall c | c in Squeezed(s, inRun) :: c in s || c == ' '
    ensures (forall i | 0 <= i < |s| :: !Space(s[i])) ==> Squeezed(s, inRun) == s
    ensures Blank(s) ==> Blank(Squeezed(s, inRun))
  {
    if |s| > 0 {
      SqueezeShrinks(s[1..], Space(s[0]));
      assert s == [s[0]] + s[1..];
    }
  }

  lemma SqueezeOne(c: char, inRun: bool)
    requires !Space(c)
    ensures Squeezed([c], inRun) == [c]
  {
    assert [c][1..] == "";
  }

  lemma GroupSqueezed(m: string, open: char, close: char, most: nat, inRun: bool)
    requires Group(m, open, close, most) && !Space(open) && !Space(close)
    ensures Group(Squeezed(m, inRun), open, close, most)
  {
    hide Squeezed; hide RunAfter;
    var inside := m[1..|m| - 1];
    assert m == [open] + inside + [close];
    GroupOf(inside, open, close, most);
    var n := RunAfter([open], inRun);
    SqueezeAppend([open] + inside, [close], inRun);
    SqueezeAppend([open], inside, inRun);
    SqueezeOne(open, inRun);
    SqueezeOne(close, RunAfter([open] + inside, inRun));
    SqueezeShrinks(inside, n);
    GroupOf(Squeezed(inside, n), open, close, most);
  }

  lemma FitsSqueezed(item: Item, m: string, inRun: bool)
    requires Fits(item, m) && (item.Exactly? ==> !Space(item.c))
    ensures Fits(item, Squeezed(m, inRun))
  {
    hide Squeezed; hide Group;
    match item {
      case Exactly(c) => SqueezeOne(c, inRun);
      case Spaces => SqueezeShrinks(m, inRun);
      case Hole =>
        if Group(m, '(', ')', 120) { GroupSqueezed(m, '(', ')', 120, inRun); }
        else if Group(m, '[', ']', 120) { GroupSqueezed(m, '[', ']', 120, inRun); }
        else if Group(m, '{', '}', 80) { GroupSqueezed(m, '{', '}', 80, inRun); }
        else { SqueezeShrinks(m, inRun); }
    }
  }

  lemma {:induction false} MatchSqueezed(items: seq<Item>, s: string, inRun: bool)
    requires Matches(items, s) && forall i | 0 <= i < |items| && items[i].Exactly? :: !Space(items[i].c)
    ensures Matches(items, Squeezed(s, inRun))
  {
    hide Squeezed; hide Fits; hide Space; hide RunAfter;
    if |items| == 0 {
      SqueezeShrinks(s, inRun);
    } else {
      var k :| 0 <= k <= |s| && Fits(items[0], s[..k]) && Matches(items[1..], s[k..]);
      assert s == s[..k] + s[k..];
      SqueezeAppend(s[..k], s[k..], inRun);
      FitsSqueezed(items[0], s[..k], inRun);
      MatchSqueezed(items[1..], s[k..], RunAfter(s[..k], inRun));
      var a, b := Squeezed(s[..k], inRun), Squeezed(s[k..], RunAfter(s[..k], inRun));
      assert (a + b)[..|a|] == a && (a + b)[|a|..] == b;
      MatchCons(items, a, a + b);
    }
  }

  lemma FoundSqueezed(items: seq<Item>, s: string)
    requires Found(items, s) && forall i | 0 <= i < |items| && items[i].Exactly? :: !Space(items[i].c)
    ensures Found(items, Squeezed(s, false))
  {
    hide Squeezed; hide Matches; hide Space; hide RunAfter;
    var i, j :| 0 <= i <= j <= |s| && Matches(items, s[i..j]);
    var n := RunAfter(s[..i], false);
    assert s == s[..i] + s[i..j] + s[j..];
    SqueezeAppend(s[..i] + s[i..j], s[j..], false);
    SqueezeAppend(s[..i], s[i..j], false);
    MatchSqueezed(items, s[i..j], n);
    var a, b := Squeezed(s[..i], false), Squeezed(s[i..j], n);
    assert Squeezed(s, false)[|a|..|a| + |b|] == b;
  }

  // ---- Whitespace other than spaces in a pattern ----

  // A literal asks for a tab or a line break.
  ghost predicate Odd(parts: seq<Part>) {
    exists i, c | 0 <= i < |parts| && parts[i].LiteralPart? && c in parts[i].text :: Space(c) && c != ' '
  }

  lemma {:induction false} LiteralChars(text: string)
    ensures |LiteralItems(text)| == |text|
    ensures forall i | 0 <= i < |text| :: LiteralItems(text)[i] == if text[i] == ' ' then Spaces else Exactly(text[i])
  {
    if |text| > 0 { LiteralChars(text[1..]); }
  }

  lemma {:induction false} ItemsExact(parts: seq<Part>)
    requires !Odd(parts)
    ensures forall i | 0 <= i < |Items(parts)| && Items(parts)[i].Exactly? :: !Space(Items(parts)[i].c)
  {
    hide Space; hide LiteralItems;
    if |parts| > 0 {
      assert forall i | 0 <= i < |parts[1..]| :: parts[1..][i] == parts[i + 1];
      ItemsExact(parts[1..]);
      if parts[0].LiteralPart? {
        LiteralChars(parts[0].text);
        forall i | 0 <= i < |parts[0].text| && parts[0].text[i] != ' ' ensures !Space(parts[0].text[i]) {
          assert parts[0].text[i] in parts[0].text;
        }
      }
    }
  }

  lemma {:induction false} ExactInside(items: seq<Item>, s: string, n: nat)
    requires Matches(items, s) && n < |items| && items[n].Exactly?
    ensures items[n].c in s
  {
    var k :| 0 <= k <= |s| && Fits(items[0], s[..k]) && Matches(items[1..], s[k..]);
    assert s == s[..k] + s[k..];
    if n > 0 { ExactInside(items[1..], s[k..], n - 1); }
  }

  lemma InsideTwice(s: string, i: nat, j: nat, a: nat, b: nat, c: char)
    requires i <= j <= |s| && a <= b <= j - i && c in s[i..j][a..b]
    ensures c in s
  {
    var m := s[i..j][a..b];
    var k :| 0 <= k < |m| && m[k] == c;
    assert s[i + a + k] == c;
  }

  lemma OddNeverFound(parts: seq<Part>, signature: string)
    requires Odd(parts)
    ensures !Found(Items(parts), Normal(signature))
  {
    hide Squeezed; hide Matches; hide Items; hide Arrows; hide Space; hide LiteralItems;
    var s := Normal(signature);
    SqueezedPlain(Arrows(signature), false);
    if Found(Items(parts), s) {
      var n, c :| 0 <= n < |parts| && parts[n].LiteralPart? && c in parts[n].text && Space(c) && c != ' ';
      var i, j :| 0 <= i <= j <= |s| && Matches(Items(parts), s[i..j]);
      var a, b := PartInside(parts, s[i..j], n);
      LiteralChars(parts[n].text);
      var k :| 0 <= k < |parts[n].text| && parts[n].text[k] == c;
      var m := s[i..j][a..b];
      ExactInside(PartItems(parts[n]), m, k);
      InsideTwice(s, i, j, a, b, c);
    }
  }

  // ---- The theorems ----

  lemma {:induction false} ArrowsGone(s: string)
    ensures forall c | c in Arrows(s) :: !Arrow(c)
  {
    if |s| > 0 { ArrowsGone(s[1..]); }
  }

  lemma {:induction false} TokensInside(s: string, from: nat, i: nat)
    requires from <= i <= |s|
    ensures forall t, c | t in Tokens(s, from, i) && c in t :: c in s
    decreases |s| - i
  {
    hide WildAt;
    if i < |s| {
      var n := WildAt(s, i);
      if n > 0 { TokensInside(s, i + n, i + n); } else { TokensInside(s, from, i + 1); }
    }
  }

  lemma {:induction false} LeftInside(s: string)
    ensures forall c | c in LeftStrip(s) :: c in s
  {
    if |s| > 0 && Space(s[0]) { LeftInside(s[1..]); }
  }

  lemma {:induction false} RightInside(s: string)
    ensures forall c | c in RightStrip(s) :: c in s
  {
    if |s| > 0 && Space(s[|s| - 1]) { RightInside(s[..|s| - 1]); }
  }

  lemma StripInside(s: string)
    ensures forall c | c in Strip(s) :: c in s
  {
    LeftInside(s);
    RightInside(LeftStrip(s));
  }

  lemma {:induction false} PartsInside(tokens: seq<string>, s: string)
    requires forall t, c | t in tokens && c in t :: c in s
    ensures forall i | 0 <= i < |Parts(tokens)| && Parts(tokens)[i].LiteralPart? :: forall c | c in Parts(tokens)[i].text :: c in s
  {
    hide Strip;
    if |tokens| > 0 {
      PartsInside(tokens[1..], s);
      StripInside(tokens[0]);
      assert tokens[0] in tokens;
    }
  }

  lemma CompiledAsciied(pattern: string)
    requires Compiled(pattern).Some?
    ensures Asciied(Compiled(pattern).value)
  {
    hide Tokens; hide Parts; hide Strip; hide Arrow;
    var s := Strip(Arrows(pattern));
    ArrowsGone(pattern);
    StripInside(Arrows(pattern));
    TokensInside(s, 0, 0);
    PartsInside(Tokens(s, 0, 0), s);
  }

  lemma WrittenFound(parts: seq<Part>, f: Filling, before: string, after: string)
    requires Filled(parts, f) && Asciied(parts)
    ensures Found(Items(parts), Arrows(before + Written(parts, f, 0) + after))
  {
    hide Matches; hide Arrows; hide Filled; hide Asciied; hide Items; hide Written;
    WrittenMatches(parts, f, 0);
    assert parts[0..] == parts;
    var m := Written(parts, f, 0);
    ArrowsAppend(before + m, after);
    ArrowsAppend(before, m);
    var a, b := Arrows(before), Arrows(m);
    assert Arrows(before + m + after)[|a|..|a| + |b|] == b;
  }

  /**
    Put any type atom into each hole of a pattern, any whitespace between its
    parts and in place of each of its spaces, and anything around it: the
    signature is found. It is never found when the pattern has a literal with a
    tab or a line break, which normalising removes from every signature.
   */
  lemma FilledPatternsAreFound(pattern: string, f: Filling, before: string, after: string)
    requires Compiled(pattern).Some? && Filled(Compiled(pattern).value, f)
    ensures var parts := Compiled(pattern).value;
            Found(Items(parts), Normal(before + Written(parts, f, 0) + after)) <==> !Odd(parts)
  {
    hide Found; hide Arrows; hide Filled; hide Asciied; hide Items; hide Written; hide Odd; hide Compiled; hide Squeezed; hide Space;
    var parts := Compiled(pattern).value;
    var s := before + Written(parts, f, 0) + after;
    if Odd(parts) {
      OddNeverFound(parts, s);
    } else {
      CompiledAsciied(pattern);
      WrittenFound(parts, f, before, after);
      ItemsExact(parts);
      FoundSqueezed(Items(parts), Arrows(s));
    }
  }

  /** Normalising a signature loses no match, for exactly the patterns without such literals. */
  lemma NormalisingKeepsMatches(pattern: string)
    requires Compiled(pattern).Some?
    ensures var parts := Compiled(pattern).value;
            (forall signature :: Found(Items(parts), Arrows(signature)) ==> Found(Items(parts), Normal(signature))) <==> !Odd(parts)
  {
    hide Found; hide Arrows; hide Asciied; hide Items; hide Written; hide Odd; hide Compiled; hide Squeezed; hide Space;
    var parts := Compiled(pattern).value;
    if Odd(parts) {
      var f := Filling(_ => "x", _ => "", _ => _ => "");
      CompiledAsciied(pattern);
      LeastFilling(parts, f);
      var s := "" + Written(parts, f, 0) + "";
      WrittenFound(parts, f, "", "");
      OddNeverFound(parts, s);
    } else {
      ItemsExact(parts);
      forall signature | Found(Items(parts), Arrows(signature)) ensures Found(Items(parts), Normal(signature)) {
        FoundSqueezed(Items(parts), Arrows(signature));
      }
    }
  }

  lemma LeastFilling(parts: seq<Part>, f: Filling)
    requires f == Filling(f.word, f.gap, f.stretch)
    requires (forall i :: f.word(i) == "x") && (forall i :: f.gap(i) == "") && (forall i, k :: f.stretch(i)(k) == "")
    ensures Filled(parts, f)
  {
    NoArrows("x");
    PlainAtoms("x");
  }
}
