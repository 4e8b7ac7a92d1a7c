/** Whitespace and stripping of ASCII text, shared by both searches. */
module Text {
  predicate Space(c: char) {
    c == ' ' || c == '\t' || c == '\n' || c == '\r' || c == '\U{0b}' || c == '\U{0c}'
  }

  function LeftStrip(s: string): string { if |s| > 0 && Space(s[0]) then LeftStrip(s[1..]) else s }

  function RightStrip(s: string): string { if |s| > 0 && Space(s[|s| - 1]) then RightStrip(s[..|s| - 1]) else s }

  function Strip(s: string): string { RightStrip(LeftStrip(s)) }
}
