/**
 * `escapeRegExp` (App.tsx:56-58): every regular-expression metacharacter of a
 * text gets a backslash in front of it, so that `new RegExp(escapeRegExp(t))`
 * matches exactly the text `t`.  `LiteralOf` reads back the text that a pattern
 * made only of ordinary characters and escaped metacharacters stands for.
 */
module Escape {
  import opened Wrappers

  /** The class `[.*+?^${}()|[\]\\]`. */
  predicate IsMeta(c: char) {
    c == '.' || c == '*' || c == '+' || c == '?' || c == '^' || c == '$'
    || c == '{' || c == '}' || c == '(' || c == ')' || c == '|' || c == '['
    || c == ']' || c == '\\'
  }

  /** `string.replace(/[.*+?^${}()|[\]\\]/g, '\\$&')`. */
  function EscapeRegExp(s: string): (r: string)
    ensures |s| <= |r| <= 2 * |s|
    ensures (forall i | 0 <= i < |s| :: !IsMeta(s[i])) ==> r == s
    decreases |s|
  {
    if s == [] then []
    else (if IsMeta(s[0]) then ['\\', s[0]] else [s[0]]) + EscapeRegExp(s[1..])
  }

  /** The text that a pattern of ordinary characters and escaped metacharacters
      matches; `None` for a pattern with an unescaped metacharacter or with an
      escape of an ordinary character. */
  function LiteralOf(pattern: string): Option<string>
    decreases |pattern|
  {
    if pattern == [] then Some([])
    else if pattern[0] == '\\' then
      if |pattern| >= 2 && IsMeta(pattern[1]) then
        match LiteralOf(pattern[2..])
        case Some(rest) => Some([pattern[1]] + rest)
        case None => None
      else None
    else if IsMeta(pattern[0]) then None
    else
      match LiteralOf(pattern[1..])
      case Some(rest) => Some([pattern[0]] + rest)
      case None => None
  }

  /** The escaped text is a pattern that matches exactly the original text. */
  lemma {:induction false} EscapeRoundTrip(s: string)
    ensures LiteralOf(EscapeRegExp(s)) == Some(s)
    decreases |s|
  {
    if s != [] {
      EscapeRoundTrip(s[1..]);
      var e := EscapeRegExp(s);
      if IsMeta(s[0]) {
        assert e[2..] == EscapeRegExp(s[1..]);
      } else {
        assert e[1..] == EscapeRegExp(s[1..]);
      }
      assert [s[0]] + s[1..] == s;
    }
  }

  /** Escaping is injective: different texts give different patterns. */
  lemma EscapeInjective(s: string, t: string)
    requires EscapeRegExp(s) == EscapeRegExp(t)
    ensures s == t
  {
    EscapeRoundTrip(s);
    EscapeRoundTrip(t);
  }
}
