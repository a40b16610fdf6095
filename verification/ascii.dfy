/** Lower-casing and stripping of ASCII text. */
module Ascii {
  function LowerChar(c: char): char {
    if 'A' <= c <= 'Z' then (c as int + 32) as char else c
  }

  function Lower(s: string): (r: string)
    ensures |r| == |s| && forall i | 0 <= i < |s| :: r[i] == LowerChar(s[i])
  {
    if s == [] then [] else [LowerChar(s[0])] + Lower(s[1..])
  }

  predicate Blank(c: char) {
    c == ' ' || '\t' <= c <= '\r'
  }

  function Strip(s: string): string {
    if s == [] then []
    else if Blank(s[0]) then Strip(s[1..])
    else if Blank(s[|s| - 1]) then Strip(s[..|s| - 1])
    else s
  }
}
