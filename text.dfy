/**
 * Characters and strings as the prompt engine of the house modeller sees them:
 * the whitespace class of JavaScript regular expressions (also the set that
 * `String.prototype.trim` strips), ASCII word characters and ASCII case folding,
 * substring search, trimming, and the whitespace collapsing that
 * `replace(/\s\s+/g, ' ')` performs.
 */
module Text {

  /** `\s` of a JavaScript regular expression; `trim()` strips the same set. */
  predicate IsSpace(c: char) {
    c == ' ' || c == '\t' || c == '\n' || c == '\U{000B}' || c == '\U{000C}' || c == '\r'
    || c == '\U{00A0}' || c == '\U{1680}' || ('\U{2000}' <= c <= '\U{200A}')
    || c == '\U{2028}' || c == '\U{2029}' || c == '\U{202F}' || c == '\U{205F}'
    || c == '\U{3000}' || c == '\U{FEFF}'
  }

  /** `\w` of a regular expression without the `u` flag. */
  predicate IsWordChar(c: char) {
    ('a' <= c <= 'z') || ('A' <= c <= 'Z') || ('0' <= c <= '9') || c == '_'
  }

  /** ASCII lower-casing of one character. */
  function Lower(c: char): char {
    if 'A' <= c <= 'Z' then (c as int + 32) as char else c
  }

  /** `toLowerCase()`, restricted to ASCII letters. */
  function LowerStr(s: string): string {
    seq(|s|, i requires 0 <= i < |s| => Lower(s[i]))
  }

  predicate IsLowerCase(s: string) {
    forall i | 0 <= i < |s| :: Lower(s[i]) == s[i]
  }

  // ---------------------------------------------------------------------------
  // Substrings

  predicate StartsWith(s: string, p: string) {
    |p| <= |s| && s[..|p|] == p
  }

  /** `s.includes(p)`, read left to right. */
  predicate Occurs(s: string, p: string)
    decreases |s|
  {
    StartsWith(s, p) || (s != [] && Occurs(s[1..], p))
  }

  /** `Occurs` is the usual "some index starts a copy of `p`". */
  lemma {:induction false} OccursIff(s: string, p: string)
    ensures Occurs(s, p) <==> exists i :: 0 <= i <= |s| && StartsWith(s[i..], p)
    decreases |s|
  {
    assert s[0..] == s;
    if s != [] && !StartsWith(s, p) {
      OccursIff(s[1..], p);
      if Occurs(s[1..], p) {
        var i :| 0 <= i <= |s[1..]| && StartsWith(s[1..][i..], p);
        assert s[1..][i..] == s[i + 1..];
      }
      if exists i :: 0 <= i <= |s| && StartsWith(s[i..], p) {
        var i :| 0 <= i <= |s| && StartsWith(s[i..], p);
        assert s[1..][i - 1..] == s[i..];
      }
    }
  }

  lemma OccursAt(s: string, p: string, i: nat)
    requires i + |p| <= |s| && s[i..i + |p|] == p
    ensures Occurs(s, p)
  {
    OccursIff(s, p);
    assert StartsWith(s[i..], p);
  }

  lemma OccursWitness(s: string, p: string) returns (i: nat)
    requires Occurs(s, p)
    ensures i + |p| <= |s| && s[i..i + |p|] == p
  {
    OccursIff(s, p);
    i :| 0 <= i <= |s| && StartsWith(s[i..], p);
  }

  lemma OccursInLeft(a: string, b: string, p: string)
    requires Occurs(a, p)
    ensures Occurs(a + b, p)
  {
    var i := OccursWitness(a, p);
    assert (a + b)[i..i + |p|] == a[i..i + |p|];
    OccursAt(a + b, p, i);
  }

  lemma OccursInRight(a: string, b: string, p: string)
    requires Occurs(b, p)
    ensures Occurs(a + b, p)
  {
    var i := OccursWitness(b, p);
    assert (a + b)[|a| + i..|a| + i + |p|] == b[i..i + |p|];
    OccursAt(a + b, p, |a| + i);
  }

  /** A copy of `p` in `a + b` that does not lie inside `a` or inside `b` covers
      the first character of `b`; if `p` lacks that character there is none. */
  lemma OccursAcrossChar(a: string, b: string, p: string)
    requires b != [] && b[0] !in p
    requires Occurs(a + b, p)
    ensures Occurs(a, p) || Occurs(b, p)
  {
    var i := OccursWitness(a + b, p);
    if i < |a| < i + |p| {
      Straddle(a, b, p, i);
    }
    if i + |p| <= |a| {
      assert a[i..i + |p|] == (a + b)[i..i + |p|];
      OccursAt(a, p, i);
    } else {
      assert b[i - |a|..i - |a| + |p|] == (a + b)[i..i + |p|];
      OccursAt(b, p, i - |a|);
    }
  }

  /** A copy of `p` at `i` in `a + b` that straddles the seam contains `b[0]`. */
  lemma Straddle(a: string, b: string, p: string, i: nat)
    requires b != [] && i < |a| < i + |p| <= |a + b| && (a + b)[i..i + |p|] == p
    ensures b[0] in p
  {
    assert p[|a| - i] == b[0];
  }

  lemma OccursLength(s: string, p: string)
    requires Occurs(s, p)
    ensures |p| <= |s|
  {
    var i := OccursWitness(s, p);
  }

  /** Every character of an occurring string is a character of the text. */
  lemma OccursChar(s: string, p: string, c: char)
    requires Occurs(s, p) && c in p
    ensures c in s
  {
    var i := OccursWitness(s, p);
    var k :| 0 <= k < |p| && p[k] == c;
    assert s[i + k] == s[i..i + |p|][k];
  }

  /** A copy of `p` at `i` in `s` agrees with `s` character by character. */
  lemma CharAt(s: string, p: string, i: nat, k: nat)
    requires i + |p| <= |s| && s[i..i + |p|] == p && k < |p|
    ensures p[k] == s[i + k]
  {
    assert s[i..i + |p|][k] == s[i + k];
  }

  /** A prefix of a text lacks what the text lacks. */
  lemma NotOccursPrefix(s: string, p: string, j: nat)
    requires !Occurs(s, p) && j <= |s|
    ensures !Occurs(s[..j], p)
  {
    assert s[..j] + s[j..] == s;
    if Occurs(s[..j], p) {
      OccursInLeft(s[..j], s[j..], p);
    }
  }

  /** Joining two texts that lack `p` cannot create `p` when the joint is a
      character `p` does not have. */
  lemma NotOccursAppend(a: string, b: string, p: string)
    requires !Occurs(a, p) && !Occurs(b, p) && b != [] && b[0] !in p
    ensures !Occurs(a + b, p)
  {
    if Occurs(a + b, p) {
      OccursAcrossChar(a, b, p);
    }
  }

  lemma StartsWithHead(s: string, p: string)
    requires StartsWith(s, p) && p != []
    ensures p[0] == s[0]
  {
    assert s[..|p|][0] == s[0];
  }

  /** Putting a character that `p` does not have in front of a text that lacks
      `p` does not create `p`. */
  lemma NotOccursCons(c: char, s: string, p: string)
    requires !Occurs(s, p) && c !in p
    ensures !Occurs([c] + s, p)
  {
    assert ([c] + s)[1..] == s;
    assert p != [] by {
      assert StartsWith(s, []);
    }
    if StartsWith([c] + s, p) {
      StartsWithHead([c] + s, p);
    }
  }

  /** A text shorter than `p` cannot contain it. */
  lemma NotOccursLength(s: string, p: string)
    requires |s| < |p|
    ensures !Occurs(s, p)
  {
    if Occurs(s, p) {
      OccursLength(s, p);
    }
  }

  /** A text that lacks a character of `p` cannot contain `p`. */
  lemma NotOccursChar(s: string, p: string, c: char)
    requires c in p && c !in s
    ensures !Occurs(s, p)
  {
    if Occurs(s, p) {
      OccursChar(s, p, c);
    }
  }

  /** No position of `s` holds the pair `x` then `y`. */
  predicate NoPair(s: string, x: char, y: char) {
    forall i | 0 <= i < |s| - 1 :: !(s[i] == x && s[i + 1] == y)
  }

  lemma OccursPair(s: string, p: string, x: char, y: char)
    requires Occurs(s, p) && !NoPair(p, x, y)
    ensures !NoPair(s, x, y)
  {
    var i := OccursWitness(s, p);
    var k :| 0 <= k < |p| - 1 && p[k] == x && p[k + 1] == y;
    assert s[i + k] == s[i..i + |p|][k] && s[i + k + 1] == s[i..i + |p|][k + 1];
  }

  /** A text that lacks a character pair of `p` cannot contain `p`. */
  lemma NotOccursPair(s: string, p: string, x: char, y: char)
    requires NoPair(s, x, y) && !NoPair(p, x, y)
    ensures !Occurs(s, p)
  {
    if Occurs(s, p) {
      OccursPair(s, p, x, y);
    }
  }

  lemma PairInLeft(a: string, b: string, x: char, y: char)
    requires !NoPair(a, x, y)
    ensures !NoPair(a + b, x, y)
  {
    var i :| 0 <= i < |a| - 1 && a[i] == x && a[i + 1] == y;
    assert (a + b)[i] == x && (a + b)[i + 1] == y;
  }

  lemma PairInRight(a: string, b: string, x: char, y: char)
    requires !NoPair(b, x, y)
    ensures !NoPair(a + b, x, y)
  {
    var i :| 0 <= i < |b| - 1 && b[i] == x && b[i + 1] == y;
    assert (a + b)[|a| + i] == x && (a + b)[|a| + i + 1] == y;
  }

  lemma NoPairAppend(a: string, b: string, x: char, y: char)
    requires NoPair(a, x, y) && NoPair(b, x, y)
    requires a == [] || b == [] || !(a[|a| - 1] == x && b[0] == y)
    ensures NoPair(a + b, x, y)
  {
    forall i | 0 <= i < |a + b| - 1
      ensures !((a + b)[i] == x && (a + b)[i + 1] == y)
    {
      if i < |a| - 1 {
        assert (a + b)[i] == a[i] && (a + b)[i + 1] == a[i + 1];
      } else if i == |a| - 1 {
        assert (a + b)[i] == a[i] && (a + b)[i + 1] == b[0];
      } else {
        assert (a + b)[i] == b[i - |a|] && (a + b)[i + 1] == b[i - |a| + 1];
      }
    }
  }

  // ---------------------------------------------------------------------------
  // Whitespace runs, trimming, collapsing

  /** Length of the maximal run of whitespace at the start of `s`. */
  function SpaceRun(s: string): (n: nat)
    ensures n <= |s|
    ensures forall i | 0 <= i < n :: IsSpace(s[i])
    ensures n < |s| ==> !IsSpace(s[n])
    decreases |s|
  {
    if s != [] && IsSpace(s[0]) then 1 + SpaceRun(s[1..]) else 0
  }

  predicate AllSpace(s: string) {
    forall i | 0 <= i < |s| :: IsSpace(s[i])
  }

  function TrimStart(s: string): string {
    s[SpaceRun(s)..]
  }

  function TrimEnd(s: string): string
    decreases |s|
  {
    if s != [] && IsSpace(s[|s| - 1]) then TrimEnd(s[..|s| - 1]) else s
  }

  /** `String.prototype.trim`. */
  function Trim(s: string): string {
    TrimEnd(TrimStart(s))
  }

  predicate Trimmed(s: string) {
    s == [] || (!IsSpace(s[0]) && !IsSpace(s[|s| - 1]))
  }

  predicate NoDoubleSpace(s: string) {
    forall i | 0 <= i < |s| - 1 :: !(IsSpace(s[i]) && IsSpace(s[i + 1]))
  }

  /** `TrimEnd(s)` is `s` without its maximal whitespace tail. */
  lemma {:induction false} TrimEndSplit(s: string)
    ensures |TrimEnd(s)| <= |s| && s[..|TrimEnd(s)|] == TrimEnd(s)
    ensures AllSpace(s[|TrimEnd(s)|..])
    ensures TrimEnd(s) == [] || !IsSpace(TrimEnd(s)[|TrimEnd(s)| - 1])
    decreases |s|
  {
    if s != [] && IsSpace(s[|s| - 1]) {
      var t := s[..|s| - 1];
      TrimEndSplit(t);
      assert s[..|TrimEnd(s)|] == t[..|TrimEnd(t)|];
      assert s[|TrimEnd(s)|..] == t[|TrimEnd(t)|..] + [s[|s| - 1]];
    } else {
      assert s[..|s|] == s;
    }
  }

  /** `trim()` keeps exactly the part of `s` between its leading and trailing
      whitespace runs, and the result neither starts nor ends with whitespace. */
  lemma TrimSpec(s: string)
    ensures Trimmed(Trim(s))
    ensures exists i, j :: 0 <= i <= j <= |s| && Trim(s) == s[i..j]
              && AllSpace(s[..i]) && AllSpace(s[j..])
  {
    var k := SpaceRun(s);
    var t := s[k..];
    TrimEndSplit(t);
    var j := k + |TrimEnd(t)|;
    assert Trim(s) == s[k..j];
    assert s[j..] == t[|TrimEnd(t)|..];
    if Trim(s) != [] {
      assert Trim(s)[0] == s[k];
    }
  }

  lemma TrimEndAppendSpace(a: string, w: string)
    requires AllSpace(w)
    ensures TrimEnd(a + w) == TrimEnd(a)
    decreases |w|
  {
    if w != [] {
      assert (a + w)[..|a + w| - 1] == a + w[..|w| - 1];
      TrimEndAppendSpace(a, w[..|w| - 1]);
    } else {
      assert a + w == a;
    }
  }

  lemma SpaceRunAppend(a: string, w: string)
    requires exists i :: 0 <= i < |a| && !IsSpace(a[i])
    ensures SpaceRun(a + w) == SpaceRun(a)
    decreases |a|
  {
    if IsSpace(a[0]) {
      assert (a + w)[1..] == a[1..] + w;
      var i :| 0 <= i < |a| && !IsSpace(a[i]);
      assert a[1..][i - 1] == a[i];
      SpaceRunAppend(a[1..], w);
    }
  }

  lemma SpaceRunAllSpace(a: string, w: string)
    requires AllSpace(a) && AllSpace(w)
    ensures SpaceRun(a + w) == |a + w|
  {
    forall i | 0 <= i < |a + w|
      ensures IsSpace((a + w)[i])
    {
      if i < |a| {
        assert (a + w)[i] == a[i];
      } else {
        assert (a + w)[i] == w[i - |a|];
      }
    }
  }

  /** Whitespace appended to a text does not survive `trim()`. */
  lemma TrimAppendSpace(a: string, w: string)
    requires AllSpace(w)
    ensures Trim(a + w) == Trim(a)
  {
    if exists i :: 0 <= i < |a| && !IsSpace(a[i]) {
      SpaceRunAppend(a, w);
      assert (a + w)[SpaceRun(a)..] == a[SpaceRun(a)..] + w;
      TrimEndAppendSpace(a[SpaceRun(a)..], w);
    } else {
      assert AllSpace(a);
      SpaceRunAllSpace(a, w);
      assert SpaceRun(a) == |a|;
    }
  }

  /** `s` ends with `p`. */
  predicate EndsWith(s: string, p: string) {
    |p| <= |s| && s[|s| - |p|..] == p
  }

  lemma SuffixChar(s: string, p: string, m: nat)
    requires EndsWith(s, p) && 1 <= m <= |p|
    ensures s[|s| - m] == p[|p| - m]
  {
    assert s[|s| - |p|..][|p| - m] == s[|s| - m];
  }

  /** Two texts that differ at the `m`-th character from the end are not
      suffixes of each other. */
  lemma EndsDiffer(x: string, y: string, m: nat)
    requires 1 <= m <= |x| && m <= |y| && x[|x| - m] != y[|y| - m]
    ensures !EndsWith(x, y) && !EndsWith(y, x)
  {
    if EndsWith(x, y) {
      SuffixChar(x, y, m);
    }
    if EndsWith(y, x) {
      SuffixChar(y, x, m);
    }
  }

  /** Two suffixes of one text: the shorter is a suffix of the longer. */
  lemma SuffixesNest(s: string, a: string, b: string)
    requires EndsWith(s, a) && EndsWith(s, b)
    ensures EndsWith(a, b) || EndsWith(b, a)
  {
    if |a| <= |b| {
      assert b[|b| - |a|..] == s[|s| - |a|..];
    } else {
      assert a[|a| - |b|..] == s[|s| - |b|..];
    }
  }

  lemma AllSpaceIndex(s: string, k: nat)
    requires AllSpace(s) && k < |s|
    ensures IsSpace(s[k])
  {
  }

  lemma {:induction false} TrimEndAllSpace(s: string)
    requires AllSpace(s)
    ensures TrimEnd(s) == []
    decreases |s|
  {
    if s != [] {
      TrimEndAllSpace(s[..|s| - 1]);
    }
  }

  /** Trimming the end of a text that is not all whitespace keeps its first character. */
  lemma {:induction false} TrimEndCons(s: string)
    requires !AllSpace(s)
    ensures TrimEnd(s) == [s[0]] + TrimEnd(s[1..])
    decreases |s|
  {
    if IsSpace(s[|s| - 1]) {
      var t := s[..|s| - 1];
      var i :| 0 <= i < |s| && !IsSpace(s[i]);
      assert t[i] == s[i];
      TrimEndCons(t);
      assert t[1..] == s[1..][..|s[1..]| - 1];
    } else if |s| == 1 {
      assert s == [s[0]] + [];
    } else {
      assert s == [s[0]] + s[1..];
    }
  }

  lemma {:induction false} SpaceRunSpaces(w: string, x: string)
    requires AllSpace(w)
    ensures SpaceRun(w + x) == |w| + SpaceRun(x)
    decreases |w|
  {
    if w == [] {
      assert w + x == x;
    } else {
      assert (w + x)[1..] == w[1..] + x;
      SpaceRunSpaces(w[1..], x);
    }
  }

  /** Printable ASCII: the only whitespace character it has is the space. */
  predicate AsciiText(s: string) {
    forall i | 0 <= i < |s| :: ' ' <= s[i] <= '~'
  }

  lemma AsciiNoNewline(s: string)
    requires AsciiText(s)
    ensures '\n' !in s
  {
    forall i | 0 <= i < |s|
      ensures s[i] != '\n'
    {
    }
  }

  lemma AsciiNoDoubleSpace(s: string)
    requires AsciiText(s) && NoPair(s, ' ', ' ')
    ensures NoDoubleSpace(s)
  {
    forall i | 0 <= i < |s| - 1
      ensures !(IsSpace(s[i]) && IsSpace(s[i + 1]))
    {
      assert ' ' <= s[i] <= '~' && ' ' <= s[i + 1] <= '~';
    }
  }

  lemma NoDoubleSpaceAppend(a: string, b: string)
    requires NoDoubleSpace(a) && NoDoubleSpace(b)
    requires a == [] || b == [] || !(IsSpace(a[|a| - 1]) && IsSpace(b[0]))
    ensures NoDoubleSpace(a + b)
  {
    forall i | 0 <= i < |a + b| - 1
      ensures !(IsSpace((a + b)[i]) && IsSpace((a + b)[i + 1]))
    {
      if i < |a| - 1 {
        assert (a + b)[i] == a[i] && (a + b)[i + 1] == a[i + 1];
      } else if i == |a| - 1 {
        assert (a + b)[i] == a[i] && (a + b)[i + 1] == b[0];
      } else {
        assert (a + b)[i] == b[i - |a|] && (a + b)[i + 1] == b[i - |a| + 1];
      }
    }
  }

  lemma {:induction false} TrimIdentity(s: string)
    requires Trimmed(s)
    ensures Trim(s) == s
  {
    if s != [] {
      assert SpaceRun(s) == 0;
      assert TrimStart(s) == s;
    }
  }

  /** `replace(/\s\s+/g, ' ')`: every run of two or more whitespace characters
      becomes one space; a single whitespace character is kept as it is. */
  function Collapse(s: string): string
    decreases |s|
  {
    if s == [] then []
    else if |s| >= 2 && IsSpace(s[0]) && IsSpace(s[1]) then " " + Collapse(s[SpaceRun(s)..])
    else [s[0]] + Collapse(s[1..])
  }

  lemma CollapseHead(s: string)
    requires s != [] && !IsSpace(s[0])
    ensures Collapse(s) != [] && Collapse(s)[0] == s[0]
  {
  }

  lemma {:induction false} CollapseNoDoubleSpace(s: string)
    ensures NoDoubleSpace(Collapse(s))
    decreases |s|
  {
    if s == [] {
    } else if |s| >= 2 && IsSpace(s[0]) && IsSpace(s[1]) {
      var rest := s[SpaceRun(s)..];
      CollapseNoDoubleSpace(rest);
      if rest != [] {
        CollapseHead(rest);
      }
      assert NoDoubleSpace(" " + Collapse(rest));
    } else {
      CollapseNoDoubleSpace(s[1..]);
      if IsSpace(s[0]) && |s| >= 2 {
        CollapseHead(s[1..]);
      }
      assert NoDoubleSpace([s[0]] + Collapse(s[1..]));
    }
  }

  lemma {:induction false} CollapseAllSpace(w: string)
    requires AllSpace(w)
    ensures AllSpace(Collapse(w))
    decreases |w|
  {
    if w == [] {
    } else if |w| >= 2 && IsSpace(w[0]) && IsSpace(w[1]) {
      CollapseAllSpace(w[SpaceRun(w)..]);
    } else {
      CollapseAllSpace(w[1..]);
    }
  }

  lemma {:induction false} CollapseIdentity(s: string)
    requires NoDoubleSpace(s)
    ensures Collapse(s) == s
    decreases |s|
  {
    if s != [] {
      CollapseIdentity(s[1..]);
      assert [s[0]] + s[1..] == s;
    }
  }

  /** Concatenation is associative. */
  lemma Assoc(a: string, b: string, c: string)
    ensures (a + b) + c == a + (b + c)
  {
  }

  /** A leading run of whitespace that ends inside `x` collapses the same
      whatever follows `x`. */
  lemma CollapseAppendRun(x: string, y: string)
    requires |x| >= 2 && IsSpace(x[0]) && IsSpace(x[1]) && !IsSpace(x[|x| - 1])
    ensures SpaceRun(x) < |x|
    ensures Collapse(x + y) == " " + Collapse(x[SpaceRun(x)..] + y)
    ensures Collapse(x) == " " + Collapse(x[SpaceRun(x)..])
  {
    var n := SpaceRun(x);
    assert n < |x|;
    SpaceRunAppend(x, y);
    assert (x + y)[0] == x[0] && (x + y)[1] == x[1];
    assert (x + y)[n..] == x[n..] + y;
  }

  /** A first character that does not start a run is kept whatever follows. */
  lemma CollapseAppendChar(x: string, y: string)
    requires x != [] && !IsSpace(x[|x| - 1])
    requires !(|x| >= 2 && IsSpace(x[0]) && IsSpace(x[1]))
    ensures Collapse(x + y) == [x[0]] + Collapse(x[1..] + y)
    ensures Collapse(x) == [x[0]] + Collapse(x[1..])
  {
    assert (x + y)[0] == x[0];
    assert (x + y)[1..] == x[1..] + y;
    if |x| >= 2 {
      assert (x + y)[1] == x[1];
    }
  }

  /** Collapsing does not look across a boundary that follows a non-space. */
  lemma {:induction false} CollapseAppend(x: string, y: string)
    requires x == [] || !IsSpace(x[|x| - 1])
    ensures Collapse(x + y) == Collapse(x) + Collapse(y)
    decreases |x|
  {
    if x == [] {
      assert x + y == y;
    } else if |x| >= 2 && IsSpace(x[0]) && IsSpace(x[1]) {
      CollapseAppendRun(x, y);
      var rest := x[SpaceRun(x)..];
      assert rest[|rest| - 1] == x[|x| - 1];
      CollapseAppend(rest, y);
      Assoc(" ", Collapse(rest), Collapse(y));
    } else {
      CollapseAppendChar(x, y);
      var rest := x[1..];
      assert rest == [] || rest[|rest| - 1] == x[|x| - 1];
      CollapseAppend(rest, y);
      Assoc([x[0]], Collapse(rest), Collapse(y));
    }
  }

  /** The display normalisation `replace(/\s\s+/g, ' ').trim()`. */
  function Normalize(s: string): string {
    Trim(Collapse(s))
  }

  /** A normalised text has no two adjacent whitespace characters and no
      whitespace at either end. */
  lemma NormalizeShape(s: string)
    ensures NoDoubleSpace(Normalize(s)) && Trimmed(Normalize(s))
  {
    CollapseNoDoubleSpace(s);
    TrimSpec(Collapse(s));
    var c := Collapse(s);
    var i, j :| 0 <= i <= j <= |c| && Trim(c) == c[i..j] && AllSpace(c[..i]) && AllSpace(c[j..]);
    forall k | 0 <= k < |c[i..j]| - 1
      ensures !(IsSpace(c[i..j][k]) && IsSpace(c[i..j][k + 1]))
    {
      assert c[i..j][k] == c[i + k] && c[i..j][k + 1] == c[i + k + 1];
    }
  }

  lemma NormalizeIdentity(s: string)
    requires NoDoubleSpace(s) && Trimmed(s)
    ensures Normalize(s) == s
  {
    CollapseIdentity(s);
    TrimIdentity(s);
  }

  /** Trailing whitespace makes no difference to the normalised text. */
  lemma NormalizeTrimEnd(s: string)
    ensures Normalize(TrimEnd(s)) == Normalize(s)
  {
    TrimEndSplit(s);
    var x := TrimEnd(s);
    var w := s[|x|..];
    assert s == x + w;
    CollapseAppend(x, w);
    assert Collapse(s) == Collapse(x) + Collapse(w);
    CollapseAllSpace(w);
    TrimAppendSpace(Collapse(x), Collapse(w));
  }
  /** A trailing space makes no difference to the normalised text. */
  lemma NormalizeAppendSpace(s: string)
    ensures Normalize(s + " ") == Normalize(s)
  {
    TrimEndAppendSpace(s, " ");
    NormalizeTrimEnd(s + " ");
    NormalizeTrimEnd(s);
  }

  /** A suffix of the second part is a suffix of the whole. */
  lemma EndsWithAppend(a: string, b: string, t: string)
    requires EndsWith(b, t)
    ensures EndsWith(a + b, t)
  {
    assert (a + b)[|a + b| - |t|..] == b[|b| - |t|..];
  }

  /** Whitespace in front of a non-space collapses to at most one character. */
  lemma CollapseSpacesThen(w: string, t: string)
    requires AllSpace(w) && t != [] && !IsSpace(t[0])
    ensures EndsWith(Collapse(w + t), Collapse(t))
  {
    var u := w + t;
    if w == [] {
      assert u == t;
    } else if |w| >= 2 {
      SpaceRunSpaces(w, t);
      assert SpaceRun(t) == 0;
      assert u[0] == w[0] && u[1] == w[1];
      assert u[|w|..] == t;
      assert Collapse(u) == " " + Collapse(t);
    } else {
      assert u[0] == w[0] && u[1] == t[0];
      assert u[1..] == t;
      assert Collapse(u) == [w[0]] + Collapse(t);
    }
  }

  /** Collapsing leaves a tail alone that starts with a non-space and has no
      double whitespace. */
  lemma CollapseKeepsTail(s: string, t: string)
    requires t != [] && !IsSpace(t[0]) && NoDoubleSpace(t)
    ensures EndsWith(Collapse(s + t), t)
  {
    TrimEndSplit(s);
    var x := TrimEnd(s);
    var w := s[|x|..];
    assert s == x + w;
    Assoc(x, w, t);
    CollapseAppend(x, w + t);
    CollapseSpacesThen(w, t);
    CollapseIdentity(t);
    EndsWithAppend(Collapse(x), Collapse(w + t), t);
  }

  /** Trimming the front keeps a tail that starts with a non-space. */
  lemma TrimStartKeepsTail(c: string, t: string)
    requires EndsWith(c, t) && t != [] && !IsSpace(t[0])
    ensures EndsWith(TrimStart(c), t)
  {
    var k := SpaceRun(c);
    assert c[|c| - |t|] == t[0];
    assert k <= |c| - |t|;
    var y := c[k..];
    assert y[|y| - |t|..] == c[|c| - |t|..];
  }

  /** Trimming the end keeps a text that ends with a non-space. */
  lemma TrimEndKeeps(y: string)
    requires y != [] && !IsSpace(y[|y| - 1])
    ensures TrimEnd(y) == y
  {
  }

  /** A tail that starts and ends with a non-space and has no double
      whitespace is still the end of the normalised text. */
  lemma NormalizeKeepsTail(s: string, t: string)
    requires t != [] && !IsSpace(t[0]) && !IsSpace(t[|t| - 1]) && NoDoubleSpace(t)
    ensures EndsWith(Normalize(s + t), t)
  {
    var c := Collapse(s + t);
    CollapseKeepsTail(s, t);
    TrimStartKeepsTail(c, t);
    var y := TrimStart(c);
    assert y[|y| - 1] == t[|t| - 1];
    TrimEndKeeps(y);
  }
}
