/** The little of the string library the other modules use. */
module Strings {

  // White space as Unicode defines it.
  predicate IsSpace(c: char) {
    || '\t' <= c <= '\r'
    || c == ' ' || c == '\U{85}' || c == '\U{A0}' || c == '\U{1680}'
    || '\U{2000}' <= c <= '\U{200A}'
    || c == '\U{2028}' || c == '\U{2029}' || c == '\U{202F}' || c == '\U{205F}' || c == '\U{3000}'
  }

  function TrimLeft(s: string): (t: string)
    ensures |t| <= |s|
    ensures t != [] ==> !IsSpace(t[0]) && t[|t| - 1] == s[|s| - 1]
  {
    if s != [] && IsSpace(s[0]) then TrimLeft(s[1..]) else s
  }

  function TrimRight(s: string): (t: string)
    ensures |t| <= |s|
    ensures t != [] ==> !IsSpace(t[|t| - 1])
  {
    if s != [] && IsSpace(s[|s| - 1]) then TrimRight(s[..|s| - 1]) else s
  }

  function TrimSpace(s: string): (t: string)
    ensures |t| <= |s|
    ensures t != [] ==> !IsSpace(t[0]) && !IsSpace(t[|t| - 1])
  {
    TrimLeft(TrimRight(s))
  }

  lemma {:induction false} SplitBehindLine(line: string, rest: string, sep: char)
    requires sep !in line
    ensures Split(line + ([sep] + rest), sep) == [line] + Split(rest, sep)
  {
    if line == [] {
      assert [] + ([sep] + rest) == [sep] + rest && ([sep] + rest)[1..] == rest;
    } else {
      assert (line + ([sep] + rest))[1..] == line[1..] + ([sep] + rest);
      SplitBehindLine(line[1..], rest, sep);
      assert [line[0]] + line[1..] == line;
      assert ([line[1..]] + Split(rest, sep))[1..] == Split(rest, sep);
    }
  }

  lemma {:induction false} PiecesHaveNone(s: string, sep: char)
    ensures forall k | 0 <= k < |Split(s, sep)| :: sep !in Split(s, sep)[k]
  {
    if s != [] {
      PiecesHaveNone(s[1..], sep);
    }
  }

  function Split(s: string, sep: char): (lines: seq<string>)
    ensures lines != []
  {
    if s == [] then [[]]
    else
      var rest := Split(s[1..], sep);
      if s[0] == sep then [[]] + rest else [[s[0]] + rest[0]] + rest[1..]
  }
}
