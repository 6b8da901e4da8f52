/**
 * The wording rewrite applied to the composed prompt of a front exterior
 * before any rule is appended: seven case-insensitive global replacements
 * that take backyard features out of the text, so that the image model is
 * not tempted to draw a pool or a lake in front of the house.
 *
 * A replacement scans the text left to right, as `String.prototype.replace`
 * with a global regular expression does: where the pattern matches it emits
 * the replacement and resumes after the match, elsewhere it keeps one
 * character. Absence of a pattern is stated on a "view" of the text (its ASCII
 * lower-casing, or that plus word boundaries), and the central fact is that a
 * replacement whose text cannot overlap the looked-for pattern cannot create it.
 */
module Sanitizer {
  import opened Text

  // ---------------------------------------------------------------------------
  // Views of a text

  /** How a pattern is looked for. `Lowered` compares the ASCII lower-cased
      text (the `i` flag). `Worded` also reads every character that is not a
      word character, and each end of the text, as '#': a whole-word
      occurrence of `w` (what `\bw\b` matches) is then a copy of "#w#". */
  datatype View = Lowered | Worded

  function Canon(c: char): char {
    if IsWordChar(c) then Lower(c) else '#'
  }

  /** The view of each character; it distributes over concatenation. */
  function Fold(v: View, s: string): (r: string)
    ensures |r| == |s|
  {
    match v
    case Lowered => LowerStr(s)
    case Worded => seq(|s|, i requires 0 <= i < |s| => Canon(s[i]))
  }

  /** What stands for an end of the text in a view. */
  function Edge(v: View): string {
    match v
    case Lowered => ""
    case Worded => "#"
  }

  function Seen(v: View, s: string): string {
    Edge(v) + Fold(v, s) + Edge(v)
  }

  /** `\bw\b` finds something in `s`. */
  predicate HasWholeWord(s: string, w: string) {
    Occurs(Seen(Worded, s), "#" + w + "#")
  }

  /** `s` contains `w` case-insensitively (`w` is lower case). */
  predicate HasText(s: string, w: string) {
    Occurs(Seen(Lowered, s), w)
  }

  lemma FoldAppend(v: View, a: string, b: string)
    ensures Fold(v, a + b) == Fold(v, a) + Fold(v, b)
  {
  }

  lemma FoldSlice(v: View, s: string, i: nat, j: nat)
    requires i <= j <= |s|
    ensures Fold(v, s[i..j]) == Fold(v, s)[i..j]
  {
  }

  /** Where every character is a lower-case letter, a digit or already
      unaffected by lower-casing, the lowered view is the text itself. */
  lemma LoweredIdentity(s: string)
    requires forall i | 0 <= i < |s| :: !('A' <= s[i] <= 'Z')
    ensures Fold(Lowered, s) == s
  {
  }

  /** A lower-case word `w` matches case-insensitively exactly where its
      worded view matches. */
  lemma WordViewMatch(m: string, w: string)
    requires |m| == |w| && forall k | 0 <= k < |w| :: 'a' <= w[k] <= 'z'
    ensures LowerStr(m) == w <==> Fold(Worded, m) == w
  {
    if LowerStr(m) == w {
      forall k | 0 <= k < |w| ensures Fold(Worded, m)[k] == w[k] {
        assert Lower(m[k]) == w[k];
      }
    }
    if Fold(Worded, m) == w {
      forall k | 0 <= k < |w| ensures LowerStr(m)[k] == w[k] {
        assert Canon(m[k]) == w[k];
      }
    }
  }

  // ---------------------------------------------------------------------------
  // Copies at a position; when a replacement text cannot create a pattern

  /** A copy of `p` starts at index `i` of `s`. */
  predicate FoundAt(s: string, p: string, i: nat) {
    i + |p| <= |s| && s[i..i + |p|] == p
  }

  /** No copy of `p` starts before index `n` of `s`. */
  predicate ClearBefore(s: string, p: string, n: nat) {
    forall i: nat | i < n :: !FoundAt(s, p, i)
  }

  lemma ClearExtend(s: string, p: string, n: nat)
    requires ClearBefore(s, p, n) && !FoundAt(s, p, n)
    ensures ClearBefore(s, p, n + 1)
  {
  }

  lemma ClearEverywhere(s: string, p: string, n: nat)
    requires p != [] && ClearBefore(s, p, n) && |s| < n + |p|
    ensures !Occurs(s, p)
  {
    if Occurs(s, p) {
      var i := OccursWitness(s, p);
      assert FoundAt(s, p, i);
    }
  }

  /** `r` and `p` cannot overlap: no copy of `p` in a text lies across the
      start or the end of a copy of `r`, or inside it. */
  predicate Separated(p: string, r: string) {
    && !Occurs(r, p)
    && (forall k | 0 < k < |p| :: !StartsWith(r, p[k..]) && !StartsWith(p[k..], r))
    && (forall k | 0 <= k < |r| :: !StartsWith(p, r[k..]))
  }

  /** A copy of `r` that overlaps the end of a copy of `p`, from index `k`
      of `p` on, repeats the first one or two characters of `r` there. */
  lemma OverlapAfter(p: string, r: string, k: nat)
    requires 0 < k < |p| && |r| >= 2
    requires StartsWith(r, p[k..]) || StartsWith(p[k..], r)
    ensures p[k] == r[0] && (k < |p| - 1 ==> p[k + 1] == r[1])
  {
    assert p[k..][0] == p[k];
    if k < |p| - 1 {
      assert p[k..][1] == p[k + 1];
    }
  }

  /** A copy of `p` that starts at index `k` of a copy of `r` and reaches its
      end repeats the first one or two characters of `p` there. */
  lemma OverlapInside(p: string, r: string, k: nat)
    requires k < |r| && |p| >= 2
    requires StartsWith(p, r[k..])
    ensures r[k] == p[0] && (k < |r| - 1 ==> r[k + 1] == p[1])
  {
    assert r[k..][0] == r[k];
    if k < |r| - 1 {
      assert r[k..][1] == r[k + 1];
    }
  }

  /** A sufficient condition for `Separated` that looks at character pairs:
      no pair of `p` after its first character begins `r`, `p` does not end
      with the first character of `r`, and the same with the roles swapped. */
  lemma SeparatedByPairs(p: string, r: string)
    requires |p| >= 2 && |r| >= 2
    requires p[|p| - 1] != r[0]
    requires forall k | 1 <= k < |p| - 1 :: !(p[k] == r[0] && p[k + 1] == r[1])
    requires r[|r| - 1] != p[0]
    requires forall k | 1 <= k < |r| - 1 :: !(r[k] == p[0] && r[k + 1] == p[1])
    requires |r| > |p| || !(r[0] == p[0] && r[1] == p[1])
    requires !Occurs(r, p)
    ensures Separated(p, r)
  {
    forall k | 0 < k < |p|
      ensures !StartsWith(r, p[k..]) && !StartsWith(p[k..], r)
    {
      if StartsWith(r, p[k..]) || StartsWith(p[k..], r) {
        OverlapAfter(p, r, k);
      }
    }
    forall k | 0 <= k < |r|
      ensures !StartsWith(p, r[k..])
    {
      if StartsWith(p, r[k..]) {
        OverlapInside(p, r, k);
      }
    }
  }

  /** A copy of `p` that begins before the end of `r` in `a + r + b` lies
      inside `a` or overlaps `r`. */
  lemma SeamMatch(a: string, r: string, b: string, p: string, i: nat)
    requires p != [] && i < |a| + |r| && FoundAt(a + r + b, p, i)
    ensures Occurs(a, p) || !Separated(p, r)
  {
    var s := a + r + b;
    var n := |p|;
    forall j | 0 <= j < n ensures p[j] == s[i + j] {
      CharAt(s, p, i, j);
    }
    if i + n <= |a| {
      assert a[i..i + n] == p;
      OccursAt(a, p, i);
    } else if i < |a| {
      var k := |a| - i;
      if n - k <= |r| {
        assert r[..n - k] == p[k..];
        assert StartsWith(r, p[k..]);
      } else {
        assert p[k..][..|r|] == r;
        assert StartsWith(p[k..], r);
      }
    } else {
      var k := i - |a|;
      if i + n <= |a| + |r| {
        assert r[k..k + n] == p;
        OccursAt(r, p, k);
      } else {
        assert p[..|r| - k] == r[k..];
        assert StartsWith(p, r[k..]);
      }
    }
  }

  /** Writing `r` after a text that lacks `p` leaves no copy of `p` that
      starts before the end of `r`, whatever follows. */
  lemma SeamClear(a: string, r: string, b: string, p: string)
    requires p != [] && !Occurs(a, p) && Separated(p, r)
    ensures ClearBefore(a + r + b, p, |a| + |r|)
  {
    forall i: nat | i < |a| + |r| ensures !FoundAt(a + r + b, p, i) {
      if FoundAt(a + r + b, p, i) {
        SeamMatch(a, r, b, p, i);
      }
    }
  }

  /** Replacing one part `q` of a text by a text `r` that cannot overlap `p`
      does not create `p`. */
  lemma SwapClear(a: string, q: string, r: string, b: string, p: string)
    requires p != [] && !Occurs(a + q + b, p) && Separated(p, r)
    ensures !Occurs(a + r + b, p)
  {
    assert a + (q + b) == a + q + b;
    if Occurs(a, p) {
      OccursInLeft(a, q + b, p);
    }
    SeamClear(a, r, b, p);
    if Occurs(a + r + b, p) {
      var i := OccursWitness(a + r + b, p);
      assert FoundAt(a + r + b, p, i);
      assert b[i - |a| - |r|..i - |a| - |r| + |p|] == p;
      OccursAt(b, p, i - |a| - |r|);
      OccursInRight(a + q, b, p);
    }
  }

  /** A text that lacks `p` has prefixes that lack it too, position by position. */
  lemma ClearPrefix(s: string, t: string, p: string, n: nat)
    requires ClearBefore(s + t, p, n)
    ensures ClearBefore(s, p, n)
  {
    forall i: nat | i < n && FoundAt(s, p, i) ensures FoundAt(s + t, p, i) {
      assert (s + t)[i..i + |p|] == s[i..i + |p|];
    }
  }

  // ---------------------------------------------------------------------------
  // The two kinds of replacement

  /** `s` starts with `pat`, compared case-insensitively (`pat` is lower case). */
  predicate MatchesAt(s: string, pat: string) {
    |pat| <= |s| && LowerStr(s[..|pat|]) == pat
  }

  /** A lower-case word made of letters, as the pattern of `\bw\b`. */
  predicate IsWord(w: string) {
    w != [] && forall k | 0 <= k < |w| :: 'a' <= w[k] <= 'z'
  }

  /** `s.replace(/pat/gi, rep)` for a pattern without metacharacters: matches
      are found left to right and do not overlap. */
  function ReplaceAll(s: string, pat: string, rep: string): string
    requires pat != []
    decreases |s|
  {
    if s == [] then []
    else if MatchesAt(s, pat) then rep + ReplaceAll(s[|pat|..], pat, rep)
    else [s[0]] + ReplaceAll(s[1..], pat, rep)
  }

  /** `\bw\b` matches at the start of `s`. */
  predicate WordMatch(s: string, afterWord: bool, w: string) {
    !afterWord && MatchesAt(s, w) && (|s| == |w| || !IsWordChar(s[|w|]))
  }

  /** `s.replace(/\bw\b/gi, rep)`; `afterWord` says whether the character just
      before `s` in the whole text is a word character (false at its start). */
  function ReplaceWord(s: string, afterWord: bool, w: string, rep: string): string
    requires w != []
    decreases |s|
  {
    if s == [] then []
    else if WordMatch(s, afterWord, w) then
      rep + ReplaceWord(s[|w|..], IsWordChar(s[|w| - 1]), w, rep)
    else [s[0]] + ReplaceWord(s[1..], IsWordChar(s[0]), w, rep)
  }

  /** A copy of the pattern right after `x` in the lowered view is a match. */
  lemma MatchFromFound(x: string, s: string, pat: string)
    requires pat != []
    ensures FoundAt(Seen(Lowered, x + s), pat, |x|) ==> MatchesAt(s, pat)
  {
    var h := Seen(Lowered, x + s);
    assert h == Fold(Lowered, x + s);
    FoldAppend(Lowered, x, s);
    if |pat| <= |s| {
      assert h[|x|..|x| + |pat|] == Fold(Lowered, s)[..|pat|];
      FoldSlice(Lowered, s, 0, |pat|);
      assert s[0..|pat|] == s[..|pat|];
    }
  }

  lemma MatchOccurs(s: string, pat: string)
    requires pat != [] && MatchesAt(s, pat)
    ensures HasText(s, pat)
  {
    FoldSlice(Lowered, s, 0, |pat|);
    assert s[0..|pat|] == s[..|pat|];
    assert Seen(Lowered, s) == Fold(Lowered, s);
    OccursAt(Seen(Lowered, s), pat, 0);
  }

  lemma HasTextTail(s: string, pat: string)
    requires s != [] && HasText(s[1..], pat)
    ensures HasText(s, pat)
  {
    assert s == [s[0]] + s[1..];
    FoldAppend(Lowered, [s[0]], s[1..]);
    assert Seen(Lowered, s) == Fold(Lowered, s) && Seen(Lowered, s[1..]) == Fold(Lowered, s[1..]);
    OccursInRight(Fold(Lowered, [s[0]]), Fold(Lowered, s[1..]), pat);
  }

  lemma Cut(x: string, s: string, n: nat)
    requires n <= |s|
    ensures x + s == x + s[..n] + s[n..]
  {
    assert s == s[..n] + s[n..];
  }

  lemma ReplaceAllMatch(x: string, s: string, pat: string, rep: string)
    requires pat != [] && s != [] && MatchesAt(s, pat)
    ensures x + ReplaceAll(s, pat, rep) == x + rep + ReplaceAll(s[|pat|..], pat, rep)
  {
  }

  lemma ReplaceAllKeep(x: string, s: string, pat: string, rep: string)
    requires pat != [] && s != [] && !MatchesAt(s, pat)
    ensures x + s == (x + [s[0]]) + s[1..]
    ensures x + ReplaceAll(s, pat, rep) == (x + [s[0]]) + ReplaceAll(s[1..], pat, rep)
  {
  }

  lemma ReplaceWordMatch(x: string, s: string, afterWord: bool, w: string, rep: string)
    requires w != [] && s != [] && WordMatch(s, afterWord, w)
    ensures x + ReplaceWord(s, afterWord, w, rep)
         == x + rep + ReplaceWord(s[|w|..], IsWordChar(s[|w| - 1]), w, rep)
  {
  }

  lemma ReplaceWordKeep(x: string, s: string, afterWord: bool, w: string, rep: string)
    requires w != [] && s != [] && !WordMatch(s, afterWord, w)
    ensures x + s == (x + [s[0]]) + s[1..]
    ensures x + ReplaceWord(s, afterWord, w, rep)
         == (x + [s[0]]) + ReplaceWord(s[1..], IsWordChar(s[0]), w, rep)
  {
  }

  /** The view of a text cut in three parts. */
  lemma SeenSplit(v: View, x: string, m: string, t: string)
    ensures Seen(v, x + m + t) == (Edge(v) + Fold(v, x)) + Fold(v, m) + (Fold(v, t) + Edge(v))
  {
    FoldAppend(v, x + m, t);
    FoldAppend(v, x, m);
  }

  lemma ClearShrink(s: string, p: string, n: nat, m: nat)
    requires ClearBefore(s, p, n) && m <= n
    ensures ClearBefore(s, p, m)
  {
  }

  /** Putting `r` in place of `q` keeps a text free of `p` up to the end of
      `r`, when no copy of `p` starts in `a` (`a` is shorter than `n + |p|`). */
  lemma SwapParts(a: string, q: string, r: string, b: string, p: string, n: nat)
    requires p != [] && |a| < n + |p| && Separated(p, r)
    requires ClearBefore(a + q + b, p, n)
    ensures ClearBefore(a + r + b, p, |a| + |r|)
  {
    Assoc(a, q, b);
    ClearPrefix(a, q + b, p, n);
    ClearEverywhere(a, p, n);
    SeamClear(a, r, b, p);
  }

  /** Writing `rep` in place of `m` keeps a text free of `p` up to the end of
      `rep`, when nothing before `m` holds `p`. */
  lemma SwapSeen(v: View, x: string, m: string, t: string, rep: string, p: string)
    requires |Edge(v)| < |p| && Separated(p, Fold(v, rep))
    requires ClearBefore(Seen(v, x + m + t), p, |x|)
    ensures ClearBefore(Seen(v, x + rep + t), p, |x| + |rep|)
  {
    SeenSplit(v, x, m, t);
    SeenSplit(v, x, rep, t);
    var a, b := Edge(v) + Fold(v, x), Fold(v, t) + Edge(v);
    SwapParts(a, Fold(v, m), Fold(v, rep), b, p, |x|);
    ClearShrink(Seen(v, x + rep + t), p, |a| + |Fold(v, rep)|, |x| + |rep|);
  }

  /** Writing `rep` in place of `m` keeps a text free of `p`. */
  lemma SwapSeenAll(v: View, x: string, m: string, t: string, rep: string, p: string)
    requires p != [] && Separated(p, Fold(v, rep))
    requires !Occurs(Seen(v, x + m + t), p)
    ensures !Occurs(Seen(v, x + rep + t), p)
  {
    SeenSplit(v, x, m, t);
    SeenSplit(v, x, rep, t);
    SwapClear(Edge(v) + Fold(v, x), Fold(v, m), Fold(v, rep), Fold(v, t) + Edge(v), p);
  }

  /** After `ReplaceAll`, no copy of the pattern is left when the replacement
      text cannot overlap it; `x` is the part of the result already written. */
  lemma {:induction false} ClearsFrom(x: string, s: string, pat: string, rep: string)
    requires pat != [] && Separated(pat, Fold(Lowered, rep))
    requires ClearBefore(Seen(Lowered, x + s), pat, |x|)
    ensures !HasText(x + ReplaceAll(s, pat, rep), pat)
    decreases |s|
  {
    if s == [] {
      assert x + ReplaceAll(s, pat, rep) == x + s;
      ClearEverywhere(Seen(Lowered, x + s), pat, |x|);
    } else if MatchesAt(s, pat) {
      Cut(x, s, |pat|);
      SwapSeen(Lowered, x, s[..|pat|], s[|pat|..], rep, pat);
      ClearsFrom(x + rep, s[|pat|..], pat, rep);
      ReplaceAllMatch(x, s, pat, rep);
    } else {
      var h := Seen(Lowered, x + s);
      MatchFromFound(x, s, pat);
      ClearExtend(h, pat, |x|);
      ReplaceAllKeep(x, s, pat, rep);
      ClearsFrom(x + [s[0]], s[1..], pat, rep);
    }
  }

  /** No copy of the pattern survives `ReplaceAll` when the replacement text
      cannot overlap it. */
  lemma ReplaceAllClears(s: string, pat: string, rep: string)
    requires pat != [] && Separated(pat, Fold(Lowered, rep))
    ensures !HasText(ReplaceAll(s, pat, rep), pat)
  {
    assert [] + s == s;
    ClearsFrom([], s, pat, rep);
    assert [] + ReplaceAll(s, pat, rep) == ReplaceAll(s, pat, rep);
  }

  /** A replacement whose text cannot overlap `p` does not create `p`, in either
      view. */
  lemma {:induction false} KeepsAbsent(v: View, x: string, s: string, pat: string, rep: string, p: string)
    requires pat != [] && p != [] && Separated(p, Fold(v, rep))
    requires !Occurs(Seen(v, x + s), p)
    ensures !Occurs(Seen(v, x + ReplaceAll(s, pat, rep)), p)
    decreases |s|
  {
    if s == [] {
      assert x + ReplaceAll(s, pat, rep) == x + s;
    } else if MatchesAt(s, pat) {
      Cut(x, s, |pat|);
      SwapSeenAll(v, x, s[..|pat|], s[|pat|..], rep, p);
      KeepsAbsent(v, x + rep, s[|pat|..], pat, rep, p);
      ReplaceAllMatch(x, s, pat, rep);
    } else {
      ReplaceAllKeep(x, s, pat, rep);
      KeepsAbsent(v, x + [s[0]], s[1..], pat, rep, p);
    }
  }

  lemma KeepsAbsentFrom(v: View, s: string, pat: string, rep: string, p: string)
    requires pat != [] && p != [] && Separated(p, Fold(v, rep))
    requires !Occurs(Seen(v, s), p)
    ensures !Occurs(Seen(v, ReplaceAll(s, pat, rep)), p)
  {
    assert [] + s == s;
    KeepsAbsent(v, [], s, pat, rep, p);
    assert [] + ReplaceAll(s, pat, rep) == ReplaceAll(s, pat, rep);
  }

  /** A text without the pattern is left as it is. */
  lemma {:induction false} ReplaceAllUnchanged(s: string, pat: string, rep: string)
    requires pat != [] && !HasText(s, pat)
    ensures ReplaceAll(s, pat, rep) == s
    decreases |s|
  {
    if s != [] {
      if MatchesAt(s, pat) {
        MatchOccurs(s, pat);
      } else {
        if HasText(s[1..], pat) {
          HasTextTail(s, pat);
        }
        ReplaceAllUnchanged(s[1..], pat, rep);
        assert s == [s[0]] + s[1..];
      }
    }
  }

  // ---------------------------------------------------------------------------
  // Whole words

  lemma ThreeParts(u: string, w: string, a: char, b: char, c: char)
    requires |u| == |w| + 2
    ensures u == [a] + w + [c] <==> u[0] == a && u[1..|w| + 1] == w && u[|w| + 1] == c
  {
    if u[0] == a && u[1..|w| + 1] == w && u[|w| + 1] == c {
      assert u == [u[0]] + u[1..|w| + 1] + [u[|w| + 1]];
    }
  }

  lemma CanonHash(c: char)
    ensures Canon(c) == '#' <==> !IsWordChar(c)
  {
  }

  /** In the worded view, the character just before `s` is '#' exactly when
      no word character precedes `s`. */
  lemma HashBefore(x: string, s: string, afterWord: bool)
    requires afterWord == (x != [] && IsWordChar(x[|x| - 1]))
    ensures |Seen(Worded, x + s)| == |x| + |s| + 2
    ensures Seen(Worded, x + s)[|x|] == '#' <==> !afterWord
  {
    FoldAppend(Worded, x, s);
    assert Seen(Worded, x + s) == ("#" + Fold(Worded, x)) + (Fold(Worded, s) + "#");
    if x != [] {
      CanonHash(x[|x| - 1]);
    }
  }

  /** In the worded view, the character just after the first `n` characters of
      `s` is '#' exactly when `s` ends there or goes on with a non-word
      character. */
  lemma HashAfter(x: string, s: string, n: nat)
    requires n <= |s|
    ensures |Seen(Worded, x + s)| == |x| + |s| + 2
    ensures Seen(Worded, x + s)[|x| + 1 + n] == '#' <==> (|s| == n || !IsWordChar(s[n]))
  {
    FoldAppend(Worded, x, s);
    assert Seen(Worded, x + s) == ("#" + Fold(Worded, x)) + (Fold(Worded, s) + "#");
    if n < |s| {
      CanonHash(s[n]);
    }
  }

  /** In the worded view, the first `|w|` characters of `s` read `w` exactly
      when `s` starts with `w` case-insensitively. */
  lemma WordAfter(x: string, s: string, w: string)
    requires IsWord(w) && |w| <= |s|
    ensures |Seen(Worded, x + s)| == |x| + |s| + 2
    ensures Seen(Worded, x + s)[|x| + 1..|x| + 1 + |w|] == w <==> MatchesAt(s, w)
  {
    FoldAppend(Worded, x, s);
    var a := "#" + Fold(Worded, x);
    assert Seen(Worded, x + s) == a + (Fold(Worded, s) + "#");
    assert Seen(Worded, x + s)[|x| + 1..|x| + 1 + |w|] == Fold(Worded, s)[..|w|];
    FoldSlice(Worded, s, 0, |w|);
    assert s[0..|w|] == s[..|w|];
    WordViewMatch(s[..|w|], w);
  }

  /** A copy of "#w#" is a '#', a copy of `w` and a '#'. */
  lemma FoundFramed(h: string, w: string, i: nat)
    requires i + |w| + 2 <= |h|
    ensures FoundAt(h, "#" + w + "#", i)
        <==> h[i] == '#' && h[i + 1..i + 1 + |w|] == w && h[i + 1 + |w|] == '#'
  {
    var u := h[i..i + |w| + 2];
    assert u[0] == h[i] && u[|w| + 1] == h[i + 1 + |w|];
    var mid, cut := u[1..|w| + 1], h[i + 1..i + 1 + |w|];
    forall k | 0 <= k < |w| ensures mid[k] == cut[k] {
      assert mid[k] == u[k + 1] == h[i + 1 + k];
    }
    assert mid == cut;
    ThreeParts(u, w, '#', '#', '#');
    assert "#" + w + "#" == ['#'] + w + ['#'];
  }

  /** In the worded view, "#w#" starts right before `s` exactly when
      `\bw\b` matches at the start of `s`. */
  lemma WordBoundaryAt(x: string, s: string, afterWord: bool, w: string)
    requires IsWord(w)
    requires afterWord == (x != [] && IsWordChar(x[|x| - 1]))
    ensures FoundAt(Seen(Worded, x + s), "#" + w + "#", |x|) <==> WordMatch(s, afterWord, w)
  {
    var n := |w|;
    if n <= |s| {
      HashBefore(x, s, afterWord);
      HashAfter(x, s, n);
      WordAfter(x, s, w);
      BoundaryCombine(Seen(Worded, x + s), |x|, s, afterWord, w);
    }
  }

  /** The three parts of a framed copy, read off a view `h` of a text whose
      part `s` starts at index `i + 1`. */
  lemma BoundaryCombine(h: string, i: nat, s: string, afterWord: bool, w: string)
    requires IsWord(w) && |w| <= |s| && |h| == i + |s| + 2
    requires h[i] == '#' <==> !afterWord
    requires h[i + 1 + |w|] == '#' <==> (|s| == |w| || !IsWordChar(s[|w|]))
    requires h[i + 1..i + 1 + |w|] == w <==> MatchesAt(s, w)
    ensures FoundAt(h, "#" + w + "#", i) <==> WordMatch(s, afterWord, w)
  {
    FoundFramed(h, w, i);
  }

  /** A match of a word ends with a letter. */
  lemma MatchEndsInWord(s: string, w: string)
    requires IsWord(w) && MatchesAt(s, w)
    ensures IsWordChar(s[|w| - 1])
  {
    assert LowerStr(s[..|w|])[|w| - 1] == Lower(s[|w| - 1]);
  }

  /** After `ReplaceWord`, no whole word `w` is left: the replacement ends
      with a word character and cannot overlap "#w#". */
  lemma {:induction false} WordClearsFrom(x: string, s: string, afterWord: bool, w: string, rep: string)
    requires IsWord(w) && rep != [] && IsWordChar(rep[|rep| - 1])
    requires Separated("#" + w + "#", Fold(Worded, rep))
    requires afterWord == (x != [] && IsWordChar(x[|x| - 1]))
    requires ClearBefore(Seen(Worded, x + s), "#" + w + "#", |x|)
    ensures !HasWholeWord(x + ReplaceWord(s, afterWord, w, rep), w)
    decreases |s|
  {
    var p := "#" + w + "#";
    var n := |w|;
    if s == [] {
      assert x + ReplaceWord(s, afterWord, w, rep) == x + s;
      ClearEverywhere(Seen(Worded, x + s), p, |x|);
    } else if WordMatch(s, afterWord, w) {
      WordClearsMatchStep(x, s, afterWord, w, rep);
      WordClearsFrom(x + rep, s[n..], IsWordChar(s[n - 1]), w, rep);
      ReplaceWordMatch(x, s, afterWord, w, rep);
    } else {
      WordClearsKeepStep(x, s, afterWord, w);
      WordClearsFrom(x + [s[0]], s[1..], IsWordChar(s[0]), w, rep);
      ReplaceWordKeep(x, s, afterWord, w, rep);
    }
  }

  /** After a match is replaced, the written part ends with a word character
      and the text stays free of "#w#" up to the end of the replacement. */
  lemma WordClearsMatchStep(x: string, s: string, afterWord: bool, w: string, rep: string)
    requires IsWord(w) && rep != [] && IsWordChar(rep[|rep| - 1])
    requires Separated("#" + w + "#", Fold(Worded, rep))
    requires s != [] && WordMatch(s, afterWord, w)
    requires ClearBefore(Seen(Worded, x + s), "#" + w + "#", |x|)
    ensures ClearBefore(Seen(Worded, (x + rep) + s[|w|..]), "#" + w + "#", |x + rep|)
    ensures IsWordChar(s[|w| - 1]) == (x + rep != [] && IsWordChar((x + rep)[|x + rep| - 1]))
  {
    var n := |w|;
    Cut(x, s, n);
    SwapSeen(Worded, x, s[..n], s[n..], rep, "#" + w + "#");
    MatchEndsInWord(s, w);
    assert (x + rep)[|x + rep| - 1] == rep[|rep| - 1];
  }

  /** A character that starts no whole word is passed over, and the text stays
      free of "#w#" one position further. */
  lemma WordClearsKeepStep(x: string, s: string, afterWord: bool, w: string)
    requires IsWord(w) && s != [] && !WordMatch(s, afterWord, w)
    requires afterWord == (x != [] && IsWordChar(x[|x| - 1]))
    requires ClearBefore(Seen(Worded, x + s), "#" + w + "#", |x|)
    ensures ClearBefore(Seen(Worded, (x + [s[0]]) + s[1..]), "#" + w + "#", |x + [s[0]]|)
    ensures IsWordChar(s[0]) == (x + [s[0]] != [] && IsWordChar((x + [s[0]])[|x + [s[0]]| - 1]))
  {
    WordBoundaryAt(x, s, afterWord, w);
    ClearExtend(Seen(Worded, x + s), "#" + w + "#", |x|);
    SeenShift(x, s);
  }

  /** No whole word `w` survives `ReplaceWord` run over a whole text. */
  lemma ReplaceWordClears(s: string, w: string, rep: string)
    requires IsWord(w) && rep != [] && IsWordChar(rep[|rep| - 1])
    requires Separated("#" + w + "#", Fold(Worded, rep))
    ensures !HasWholeWord(ReplaceWord(s, false, w, rep), w)
  {
    assert [] + s == s;
    WordClearsFrom([], s, false, w, rep);
    assert [] + ReplaceWord(s, false, w, rep) == ReplaceWord(s, false, w, rep);
  }

  /** Moving the first character of `s` to the written part keeps the view. */
  lemma SeenShift(x: string, s: string)
    requires s != []
    ensures Seen(Worded, (x + [s[0]]) + s[1..]) == Seen(Worded, x + s)
    ensures (x + [s[0]])[|x + [s[0]]| - 1] == s[0]
  {
    assert (x + [s[0]]) + s[1..] == x + s;
  }

  /** A character that starts no match is copied, and the rest is unchanged. */
  lemma WordUnchangedStep(s: string, afterWord: bool, w: string, rep: string)
    requires w != [] && s != [] && !WordMatch(s, afterWord, w)
    requires ReplaceWord(s[1..], IsWordChar(s[0]), w, rep) == s[1..]
    ensures ReplaceWord(s, afterWord, w, rep) == s
  {
    assert [s[0]] + s[1..] == s;
  }

  /** A text without a whole word `w` is left as it is. */
  lemma {:induction false} WordUnchangedFrom(x: string, s: string, afterWord: bool, w: string, rep: string)
    requires IsWord(w)
    requires afterWord == (x != [] && IsWordChar(x[|x| - 1]))
    requires !Occurs(Seen(Worded, x + s), "#" + w + "#")
    ensures ReplaceWord(s, afterWord, w, rep) == s
    decreases |s|
  {
    if s != [] {
      if WordMatch(s, afterWord, w) {
        WordBoundaryAt(x, s, afterWord, w);
        OccursAt(Seen(Worded, x + s), "#" + w + "#", |x|);
      } else {
        SeenShift(x, s);
        WordUnchangedFrom(x + [s[0]], s[1..], IsWordChar(s[0]), w, rep);
        WordUnchangedStep(s, afterWord, w, rep);
      }
    }
  }

  /** `ReplaceWord` changes a text exactly when it holds the whole word. */
  lemma ReplaceWordIdentityIff(s: string, w: string, rep: string)
    requires IsWord(w) && rep != [] && IsWordChar(rep[|rep| - 1])
    requires Separated("#" + w + "#", Fold(Worded, rep))
    ensures ReplaceWord(s, false, w, rep) == s <==> !HasWholeWord(s, w)
  {
    assert [] + s == s;
    if !HasWholeWord(s, w) {
      WordUnchangedFrom([], s, false, w, rep);
    }
    ReplaceWordClears(s, w, rep);
  }

  // ---------------------------------------------------------------------------
  // Skipping a part that holds no match; absence shown by a missing character

  lemma NoMatchByChar(t: string, pat: string, k: nat)
    requires k < |pat| && (|t| < |pat| || Lower(t[k]) != pat[k])
    ensures !MatchesAt(t, pat)
  {
    if |pat| <= |t| {
      assert LowerStr(t[..|pat|])[k] == Lower(t[k]);
    }
  }

  /** `ReplaceAll` copies a leading part in which no match starts. */
  lemma {:induction false} ReplaceAllSkip(a: string, b: string, pat: string, rep: string)
    requires pat != [] && forall i | 0 <= i < |a| :: !MatchesAt((a + b)[i..], pat)
    ensures ReplaceAll(a + b, pat, rep) == a + ReplaceAll(b, pat, rep)
    decreases |a|
  {
    if a == [] {
      assert a + b == b;
    } else {
      ReplaceAllSkipStep(a, b, pat, rep);
      ReplaceAllSkip(a[1..], b, pat, rep);
      SkipJoin(a, ReplaceAll(b, pat, rep));
    }
  }

  /** The first character of a part in which no match starts is copied, and
      no match starts in the rest of that part. */
  lemma ReplaceAllSkipStep(a: string, b: string, pat: string, rep: string)
    requires pat != [] && a != [] && forall i | 0 <= i < |a| :: !MatchesAt((a + b)[i..], pat)
    ensures ReplaceAll(a + b, pat, rep) == [a[0]] + ReplaceAll(a[1..] + b, pat, rep)
    ensures forall i | 0 <= i < |a[1..]| :: !MatchesAt((a[1..] + b)[i..], pat)
  {
    assert (a + b)[0..] == a + b;
    assert (a + b)[1..] == a[1..] + b;
    forall i | 0 <= i < |a[1..]| ensures !MatchesAt((a[1..] + b)[i..], pat) {
      assert (a[1..] + b)[i..] == (a + b)[i + 1..];
    }
  }

  /** `ReplaceWord` copies a leading part that lacks the first letter of the word. */
  lemma {:induction false} ReplaceWordSkip(a: string, b: string, afterWord: bool, w: string, rep: string)
    requires w != [] && forall i | 0 <= i < |a| :: Lower(a[i]) != w[0]
    ensures ReplaceWord(a + b, afterWord, w, rep)
         == a + ReplaceWord(b, if a == [] then afterWord else IsWordChar(a[|a| - 1]), w, rep)
    decreases |a|
  {
    if a == [] {
      assert a + b == b;
    } else {
      ReplaceWordSkipStep(a, b, afterWord, w, rep);
      ReplaceWordSkip(a[1..], b, IsWordChar(a[0]), w, rep);
      SkipJoin(a, ReplaceWord(b, if a[1..] == [] then IsWordChar(a[0]) else IsWordChar(a[|a| - 1]), w, rep));
    }
  }

  /** The first character of a part that cannot start the word is copied. */
  lemma ReplaceWordSkipStep(a: string, b: string, afterWord: bool, w: string, rep: string)
    requires w != [] && a != [] && Lower(a[0]) != w[0]
    ensures ReplaceWord(a + b, afterWord, w, rep)
         == [a[0]] + ReplaceWord(a[1..] + b, IsWordChar(a[0]), w, rep)
  {
    NoMatchByChar(a + b, w, 0);
    assert (a + b)[1..] == a[1..] + b;
  }

  lemma SkipJoin(a: string, c: string)
    requires a != []
    ensures [a[0]] + (a[1..] + c) == a + c
    ensures a[1..] != [] ==> a[1..][|a[1..]| - 1] == a[|a| - 1]
  {
    Assoc([a[0]], a[1..], c);
    assert [a[0]] + a[1..] == a;
  }

  lemma LacksChar(s: string, pat: string, c: char)
    requires c in pat && forall i | 0 <= i < |s| :: Lower(s[i]) != c
    ensures !HasText(s, pat)
  {
    assert c !in Seen(Lowered, s);
    NotOccursChar(Seen(Lowered, s), pat, c);
  }

  predicate Letters(s: string) {
    forall i | 0 <= i < |s| :: 'a' <= s[i] <= 'z'
  }

  lemma WordedSpace(a: string, b: string)
    requires Letters(a)
    ensures Fold(Worded, a + " " + b) == a + "#" + Fold(Worded, b)
  {
    FoldAppend(Worded, a + " ", b);
    FoldAppend(Worded, a, " ");
    assert Fold(Worded, a) == a;
  }

  // ---------------------------------------------------------------------------
  // The front-view sanitizer

  /** The rewrites applied to a front-exterior prompt, in their order: a
      swimming pool, then any whole word "pool", becomes a lush lawn; then a
      putting green, a basketball court, a backyard, a lake and a boat become a
      garden area, a paved area, a yard, a landscaped area and a garden shed. */
  function SanitizeForFrontView(text: string): string {
    var lawn := ReplaceAll(text, "swimming pool", "lush lawn");
    var noPool := ReplaceWord(lawn, false, "pool", "lush lawn");
    var garden := ReplaceAll(noPool, "putting green", "garden area");
    var paved := ReplaceAll(garden, "basketball court", "paved area");
    var yard := ReplaceAll(paved, "backyard", "yard");
    var landscaped := ReplaceAll(yard, "lake", "landscaped area");
    ReplaceAll(landscaped, "boat", "garden shed")
  }

  /** The replacement texts, as the lowered view sees them. */
  lemma LoweredReplacements()
    ensures Fold(Lowered, "garden area") == "garden area"
    ensures Fold(Lowered, "paved area") == "paved area"
    ensures Fold(Lowered, "yard") == "yard"
    ensures Fold(Lowered, "landscaped area") == "landscaped area"
    ensures Fold(Lowered, "garden shed") == "garden shed"
  {
    LoweredIdentity("garden area");
    LoweredIdentity("paved area");
    LoweredIdentity("yard");
    LoweredIdentity("landscaped area");
    LoweredIdentity("garden shed");
  }

  /** The replacement texts, as the worded view sees them. */
  lemma WordedReplacements()
    ensures Fold(Worded, "lush lawn") == "lush#lawn"
    ensures Fold(Worded, "garden area") == "garden#area"
    ensures Fold(Worded, "paved area") == "paved#area"
    ensures Fold(Worded, "yard") == "yard"
    ensures Fold(Worded, "landscaped area") == "landscaped#area"
    ensures Fold(Worded, "garden shed") == "garden#shed"
  {
    WordedSpace("lush", "lawn");
    WordedSpace("garden", "area");
    WordedSpace("paved", "area");
    WordedSpace("landscaped", "area");
    WordedSpace("garden", "shed");
    assert Fold(Worded, "lawn") == "lawn" && Fold(Worded, "area") == "area";
    assert Fold(Worded, "shed") == "shed" && Fold(Worded, "yard") == "yard";
  }

  /** One pattern kept apart from one replacement: `c` is a character of
      the pattern missing from the replacement, and no character pair at a
      seam of the two lines up. */
  lemma ApartBy(p: string, r: string, c: char)
    requires c in p && c !in r && |p| >= 2 && |r| >= 2
    requires p[|p| - 1] != r[0] && r[|r| - 1] != p[0]
    requires forall k | 1 <= k < |p| - 1 :: !(p[k] == r[0] && p[k + 1] == r[1])
    requires forall k | 1 <= k < |r| - 1 :: !(r[k] == p[0] && r[k + 1] == p[1])
    requires |r| > |p| || !(r[0] == p[0] && r[1] == p[1])
    ensures Separated(p, r)
  {
    NotOccursChar(r, p, c);
    SeparatedByPairs(p, r);
  }

  lemma Apart1()
    ensures Separated("putting green", "garden area")
  {
    var p, r := "putting green", "garden area";
    assert forall k | 1 <= k < |p| - 1 :: !(p[k] == r[0] && p[k + 1] == r[1]);
    assert forall k | 1 <= k < |r| - 1 :: !(r[k] == p[0] && r[k + 1] == p[1]);
    ApartBy(p, r, 'u');
  }

  lemma Apart2()
    ensures Separated("putting green", "paved area")
  {
    var p, r := "putting green", "paved area";
    assert forall k | 1 <= k < |p| - 1 :: !(p[k] == r[0] && p[k + 1] == r[1]);
    assert forall k | 1 <= k < |r| - 1 :: !(r[k] == p[0] && r[k + 1] == p[1]);
    ApartBy(p, r, 'u');
  }

  lemma Apart3()
    ensures Separated("putting green", "yard")
  {
    var p, r := "putting green", "yard";
    assert forall k | 1 <= k < |p| - 1 :: !(p[k] == r[0] && p[k + 1] == r[1]);
    assert forall k | 1 <= k < |r| - 1 :: !(r[k] == p[0] && r[k + 1] == p[1]);
    ApartBy(p, r, 'u');
  }

  lemma Apart4()
    ensures Separated("putting green", "landscaped area")
  {
    var p, r := "putting green", "landscaped area";
    assert forall k | 1 <= k < |p| - 1 :: !(p[k] == r[0] && p[k + 1] == r[1]);
    assert forall k | 1 <= k < |r| - 1 :: !(r[k] == p[0] && r[k + 1] == p[1]);
    ApartBy(p, r, 'u');
  }

  lemma Apart5()
    ensures Separated("putting green", "garden shed")
  {
    var p, r := "putting green", "garden shed";
    assert forall k | 1 <= k < |p| - 1 :: !(p[k] == r[0] && p[k + 1] == r[1]);
    assert forall k | 1 <= k < |r| - 1 :: !(r[k] == p[0] && r[k + 1] == p[1]);
    ApartBy(p, r, 'u');
  }

  /** No replacement made at or after the "putting green" step can form a new "putting green". */
  lemma PuttingGreenApart()
    ensures Separated("putting green", "garden area")
    ensures Separated("putting green", "paved area")
    ensures Separated("putting green", "yard")
    ensures Separated("putting green", "landscaped area")
    ensures Separated("putting green", "garden shed")
  {
    Apart1();
    Apart2();
    Apart3();
    Apart4();
    Apart5();
  }

  lemma Apart6()
    ensures Separated("basketball court", "paved area")
  {
    var p, r := "basketball court", "paved area";
    assert forall k | 1 <= k < |p| - 1 :: !(p[k] == r[0] && p[k + 1] == r[1]);
    assert forall k | 1 <= k < |r| - 1 :: !(r[k] == p[0] && r[k + 1] == p[1]);
    ApartBy(p, r, 'b');
  }

  lemma Apart7()
    ensures Separated("basketball court", "yard")
  {
    var p, r := "basketball court", "yard";
    assert forall k | 1 <= k < |p| - 1 :: !(p[k] == r[0] && p[k + 1] == r[1]);
    assert forall k | 1 <= k < |r| - 1 :: !(r[k] == p[0] && r[k + 1] == p[1]);
    ApartBy(p, r, 'b');
  }

  lemma Apart8()
    ensures Separated("basketball court", "landscaped area")
  {
    var p, r := "basketball court", "landscaped area";
    assert forall k | 1 <= k < |p| - 1 :: !(p[k] == r[0] && p[k + 1] == r[1]);
    assert forall k | 1 <= k < |r| - 1 :: !(r[k] == p[0] && r[k + 1] == p[1]);
    ApartBy(p, r, 'b');
  }

  lemma Apart9()
    ensures Separated("basketball court", "garden shed")
  {
    var p, r := "basketball court", "garden shed";
    assert forall k | 1 <= k < |p| - 1 :: !(p[k] == r[0] && p[k + 1] == r[1]);
    assert forall k | 1 <= k < |r| - 1 :: !(r[k] == p[0] && r[k + 1] == p[1]);
    ApartBy(p, r, 'b');
  }

  /** No replacement made at or after the "basketball court" step can form a new "basketball court". */
  lemma BasketballCourtApart()
    ensures Separated("basketball court", "paved area")
    ensures Separated("basketball court", "yard")
    ensures Separated("basketball court", "landscaped area")
    ensures Separated("basketball court", "garden shed")
  {
    Apart6();
    Apart7();
    Apart8();
    Apart9();
  }

  lemma Apart10()
    ensures Separated("lake", "landscaped area")
  {
    var p, r := "lake", "landscaped area";
    assert forall k | 1 <= k < |p| - 1 :: !(p[k] == r[0] && p[k + 1] == r[1]);
    assert forall k | 1 <= k < |r| - 1 :: !(r[k] == p[0] && r[k + 1] == p[1]);
    ApartBy(p, r, 'k');
  }

  lemma Apart11()
    ensures Separated("lake", "garden shed")
  {
    var p, r := "lake", "garden shed";
    assert forall k | 1 <= k < |p| - 1 :: !(p[k] == r[0] && p[k + 1] == r[1]);
    assert forall k | 1 <= k < |r| - 1 :: !(r[k] == p[0] && r[k + 1] == p[1]);
    ApartBy(p, r, 'k');
  }

  /** No replacement made at or after the "lake" step can form a new "lake". */
  lemma LakeApart()
    ensures Separated("lake", "landscaped area")
    ensures Separated("lake", "garden shed")
  {
    Apart10();
    Apart11();
  }

  lemma Apart12()
    ensures Separated("boat", "garden shed")
  {
    var p, r := "boat", "garden shed";
    assert forall k | 1 <= k < |p| - 1 :: !(p[k] == r[0] && p[k + 1] == r[1]);
    assert forall k | 1 <= k < |r| - 1 :: !(r[k] == p[0] && r[k + 1] == p[1]);
    ApartBy(p, r, 'b');
  }

  /** No replacement made at or after the "boat" step can form a new "boat". */
  lemma BoatApart()
    ensures Separated("boat", "garden shed")
  {
    Apart12();
  }

  lemma Apart13()
    ensures Separated("#pool#", "lush#lawn")
  {
    var p, r := "#pool#", "lush#lawn";
    assert forall k | 1 <= k < |p| - 1 :: !(p[k] == r[0] && p[k + 1] == r[1]);
    assert forall k | 1 <= k < |r| - 1 :: !(r[k] == p[0] && r[k + 1] == p[1]);
    ApartBy(p, r, 'o');
  }

  lemma Apart14()
    ensures Separated("#pool#", "garden#area")
  {
    var p, r := "#pool#", "garden#area";
    assert forall k | 1 <= k < |p| - 1 :: !(p[k] == r[0] && p[k + 1] == r[1]);
    assert forall k | 1 <= k < |r| - 1 :: !(r[k] == p[0] && r[k + 1] == p[1]);
    ApartBy(p, r, 'o');
  }

  lemma Apart15()
    ensures Separated("#pool#", "paved#area")
  {
    var p, r := "#pool#", "paved#area";
    assert forall k | 1 <= k < |p| - 1 :: !(p[k] == r[0] && p[k + 1] == r[1]);
    assert forall k | 1 <= k < |r| - 1 :: !(r[k] == p[0] && r[k + 1] == p[1]);
    ApartBy(p, r, 'o');
  }

  lemma Apart16()
    ensures Separated("#pool#", "yard")
  {
    var p, r := "#pool#", "yard";
    assert forall k | 1 <= k < |p| - 1 :: !(p[k] == r[0] && p[k + 1] == r[1]);
    assert forall k | 1 <= k < |r| - 1 :: !(r[k] == p[0] && r[k + 1] == p[1]);
    ApartBy(p, r, 'o');
  }

  lemma Apart17()
    ensures Separated("#pool#", "landscaped#area")
  {
    var p, r := "#pool#", "landscaped#area";
    assert forall k | 1 <= k < |p| - 1 :: !(p[k] == r[0] && p[k + 1] == r[1]);
    assert forall k | 1 <= k < |r| - 1 :: !(r[k] == p[0] && r[k + 1] == p[1]);
    ApartBy(p, r, 'o');
  }

  lemma Apart18()
    ensures Separated("#pool#", "garden#shed")
  {
    var p, r := "#pool#", "garden#shed";
    assert forall k | 1 <= k < |p| - 1 :: !(p[k] == r[0] && p[k + 1] == r[1]);
    assert forall k | 1 <= k < |r| - 1 :: !(r[k] == p[0] && r[k + 1] == p[1]);
    ApartBy(p, r, 'o');
  }

  /** No replacement made at or after the "pool" step can form a new "#pool#". */
  lemma PoolWordApart()
    ensures Separated("#pool#", "lush#lawn")
    ensures Separated("#pool#", "garden#area")
    ensures Separated("#pool#", "paved#area")
    ensures Separated("#pool#", "yard")
    ensures Separated("#pool#", "landscaped#area")
    ensures Separated("#pool#", "garden#shed")
  {
    Apart13();
    Apart14();
    Apart15();
    Apart16();
    Apart17();
    Apart18();
  }

  // ---------------------------------------------------------------------------
  // What the sanitizer guarantees

  /** The replacements after the word step keep a text free of the whole
      word "pool". */
  lemma PoolWordStaysAbsent(noPool: string)
    requires !Occurs(Seen(Worded, noPool), "#pool#")
    ensures var garden := ReplaceAll(noPool, "putting green", "garden area");
      var paved := ReplaceAll(garden, "basketball court", "paved area");
      !Occurs(Seen(Worded, ReplaceAll(paved, "backyard", "yard")), "#pool#")
  {
    WordedReplacements();
    PoolWordApart();
    var garden := ReplaceAll(noPool, "putting green", "garden area");
    var paved := ReplaceAll(garden, "basketball court", "paved area");
    KeepsAbsentFrom(Worded, noPool, "putting green", "garden area", "#pool#");
    KeepsAbsentFrom(Worded, garden, "basketball court", "paved area", "#pool#");
    KeepsAbsentFrom(Worded, paved, "backyard", "yard", "#pool#");
  }

  /** The last two replacements keep a text free of the whole word "pool". */
  lemma PoolWordStaysAbsentToEnd(yard: string)
    requires !Occurs(Seen(Worded, yard), "#pool#")
    ensures var landscaped := ReplaceAll(yard, "lake", "landscaped area");
      !Occurs(Seen(Worded, ReplaceAll(landscaped, "boat", "garden shed")), "#pool#")
  {
    WordedReplacements();
    PoolWordApart();
    var landscaped := ReplaceAll(yard, "lake", "landscaped area");
    KeepsAbsentFrom(Worded, yard, "lake", "landscaped area", "#pool#");
    KeepsAbsentFrom(Worded, landscaped, "boat", "garden shed", "#pool#");
  }

  /** The word step leaves no whole word "pool". */
  lemma PoolWordRemoved(lawn: string)
    ensures !Occurs(Seen(Worded, ReplaceWord(lawn, false, "pool", "lush lawn")), "#pool#")
  {
    var w, rep := "pool", "lush lawn";
    assert IsWord(w);
    assert IsWordChar(rep[|rep| - 1]);
    assert "#" + w + "#" == "#pool#";
    WordedReplacements();
    PoolWordApart();
    assert Separated("#" + w + "#", Fold(Worded, rep));
    ReplaceWordClears(lawn, w, rep);
  }

  /** No whole word "pool" survives: the word step removes every one, and no
      later replacement text can form a new one. */
  lemma SanitizeRemovesPoolWord(text: string)
    ensures !HasWholeWord(SanitizeForFrontView(text), "pool")
  {
    var lawn := ReplaceAll(text, "swimming pool", "lush lawn");
    var noPool := ReplaceWord(lawn, false, "pool", "lush lawn");
    var garden := ReplaceAll(noPool, "putting green", "garden area");
    var paved := ReplaceAll(garden, "basketball court", "paved area");
    var yard := ReplaceAll(paved, "backyard", "yard");
    PoolWordRemoved(lawn);
    PoolWordStaysAbsent(noPool);
    PoolWordStaysAbsentToEnd(yard);
    assert "#" + "pool" + "#" == "#pool#";
  }

  /** No "putting green", in any letter case, survives. */
  lemma SanitizeRemovesPuttingGreen(text: string)
    ensures !HasText(SanitizeForFrontView(text), "putting green")
  {
    var lawn := ReplaceAll(text, "swimming pool", "lush lawn");
    var noPool := ReplaceWord(lawn, false, "pool", "lush lawn");
    var garden := ReplaceAll(noPool, "putting green", "garden area");
    var paved := ReplaceAll(garden, "basketball court", "paved area");
    var yard := ReplaceAll(paved, "backyard", "yard");
    var landscaped := ReplaceAll(yard, "lake", "landscaped area");
    LoweredReplacements();
    PuttingGreenApart();
    var p := "putting green";
    ReplaceAllClears(noPool, p, "garden area");
    KeepsAbsentFrom(Lowered, garden, "basketball court", "paved area", p);
    KeepsAbsentFrom(Lowered, paved, "backyard", "yard", p);
    KeepsAbsentFrom(Lowered, yard, "lake", "landscaped area", p);
    KeepsAbsentFrom(Lowered, landscaped, "boat", "garden shed", p);
  }

  /** No "basketball court", in any letter case, survives. */
  lemma SanitizeRemovesBasketballCourt(text: string)
    ensures !HasText(SanitizeForFrontView(text), "basketball court")
  {
    var lawn := ReplaceAll(text, "swimming pool", "lush lawn");
    var noPool := ReplaceWord(lawn, false, "pool", "lush lawn");
    var garden := ReplaceAll(noPool, "putting green", "garden area");
    var paved := ReplaceAll(garden, "basketball court", "paved area");
    var yard := ReplaceAll(paved, "backyard", "yard");
    var landscaped := ReplaceAll(yard, "lake", "landscaped area");
    LoweredReplacements();
    BasketballCourtApart();
    var p := "basketball court";
    ReplaceAllClears(garden, p, "paved area");
    KeepsAbsentFrom(Lowered, paved, "backyard", "yard", p);
    KeepsAbsentFrom(Lowered, yard, "lake", "landscaped area", p);
    KeepsAbsentFrom(Lowered, landscaped, "boat", "garden shed", p);
  }

  /** No "lake", in any letter case and even inside a longer word, survives. */
  lemma SanitizeRemovesLake(text: string)
    ensures !HasText(SanitizeForFrontView(text), "lake")
  {
    var lawn := ReplaceAll(text, "swimming pool", "lush lawn");
    var noPool := ReplaceWord(lawn, false, "pool", "lush lawn");
    var garden := ReplaceAll(noPool, "putting green", "garden area");
    var paved := ReplaceAll(garden, "basketball court", "paved area");
    var yard := ReplaceAll(paved, "backyard", "yard");
    var landscaped := ReplaceAll(yard, "lake", "landscaped area");
    LoweredReplacements();
    LakeApart();
    ReplaceAllClears(yard, "lake", "landscaped area");
    KeepsAbsentFrom(Lowered, landscaped, "boat", "garden shed", "lake");
  }

  /** No "boat", in any letter case and even inside a longer word, survives. */
  lemma SanitizeRemovesBoat(text: string)
    ensures !HasText(SanitizeForFrontView(text), "boat")
  {
    var lawn := ReplaceAll(text, "swimming pool", "lush lawn");
    var noPool := ReplaceWord(lawn, false, "pool", "lush lawn");
    var garden := ReplaceAll(noPool, "putting green", "garden area");
    var paved := ReplaceAll(garden, "basketball court", "paved area");
    var yard := ReplaceAll(paved, "backyard", "yard");
    var landscaped := ReplaceAll(yard, "lake", "landscaped area");
    LoweredReplacements();
    BoatApart();
    ReplaceAllClears(landscaped, "boat", "garden shed");
  }

  /** What a front view is guaranteed not to mention after sanitizing. */
  lemma SanitizeClears(text: string)
    ensures var r := SanitizeForFrontView(text);
      && !HasWholeWord(r, "pool") && !HasText(r, "putting green")
      && !HasText(r, "basketball court") && !HasText(r, "lake") && !HasText(r, "boat")
  {
    SanitizeRemovesPoolWord(text);
    SanitizeRemovesPuttingGreen(text);
    SanitizeRemovesBasketballCourt(text);
    SanitizeRemovesLake(text);
    SanitizeRemovesBoat(text);
  }

  // ---------------------------------------------------------------------------
  // Worked examples

  /** A text that is, up to letter case, exactly the pattern is replaced whole. */
  lemma ReplaceAllWhole(s: string, pat: string, rep: string)
    requires pat != [] && LowerStr(s) == pat
    ensures ReplaceAll(s, pat, rep) == rep
  {
    assert s[..|pat|] == s;
    assert s[|pat|..] == [];
    assert rep + [] == rep;
  }

  /** A text missing one character of the pattern passes through unchanged. */
  lemma ReplaceAllLacking(s: string, pat: string, rep: string, k: nat)
    requires k < |pat| && pat[k] !in LowerStr(s)
    ensures ReplaceAll(s, pat, rep) == s
  {
    forall i | 0 <= i < |s| ensures Lower(s[i]) != pat[k] {
      assert LowerStr(s)[i] == Lower(s[i]);
    }
    LacksChar(s, pat, pat[k]);
    ReplaceAllUnchanged(s, pat, rep);
  }

  /** A text without the first letter of the word passes the word step unchanged. */
  lemma ReplaceWordLacking(s: string, afterWord: bool, w: string, rep: string)
    requires w != [] && w[0] !in LowerStr(s)
    ensures ReplaceWord(s, afterWord, w, rep) == s
  {
    forall i | 0 <= i < |s| ensures Lower(s[i]) != w[0] {
      assert LowerStr(s)[i] == Lower(s[i]);
    }
    ReplaceWordSkip(s, [], afterWord, w, rep);
    assert s + [] == s;
  }

  /** The five substring steps after the word step, one by one, on a text that
      lacks the `k`-th letter of "putting green" and the letters `b` and `k`. */
  lemma GroundsKeptEach(s: string, k: nat)
    requires k < |"putting green"| && "putting green"[k] !in LowerStr(s)
    requires 'b' !in LowerStr(s) && 'k' !in LowerStr(s)
    ensures ReplaceAll(s, "putting green", "garden area") == s
    ensures ReplaceAll(s, "basketball court", "paved area") == s
    ensures ReplaceAll(s, "backyard", "yard") == s
    ensures ReplaceAll(s, "lake", "landscaped area") == s
    ensures ReplaceAll(s, "boat", "garden shed") == s
  {
    var b, y, l, t := "basketball court", "backyard", "lake", "boat";
    assert b[0] == 'b' && y[0] == 'b' && l[2] == 'k' && t[0] == 'b';
    ReplaceAllLacking(s, "putting green", "garden area", k);
    ReplaceAllLacking(s, b, "paved area", 0);
    ReplaceAllLacking(s, y, "yard", 0);
    ReplaceAllLacking(s, l, "landscaped area", 2);
    ReplaceAllLacking(s, t, "garden shed", 0);
  }

  /** The five substring steps after the word step leave such a text as it is. */
  lemma GroundsUnchanged(s: string, k: nat)
    requires k < |"putting green"| && "putting green"[k] !in LowerStr(s)
    requires 'b' !in LowerStr(s) && 'k' !in LowerStr(s)
    ensures var garden := ReplaceAll(s, "putting green", "garden area");
      var paved := ReplaceAll(garden, "basketball court", "paved area");
      var yard := ReplaceAll(paved, "backyard", "yard");
      var landscaped := ReplaceAll(yard, "lake", "landscaped area");
      ReplaceAll(landscaped, "boat", "garden shed") == s
  {
    GroundsKeptEach(s, k);
  }

  /** Like `ReplaceWordSkip`, for a leading part without the first letter of the word. */
  lemma ReplaceWordSkipLacking(a: string, b: string, afterWord: bool, w: string, rep: string)
    requires w != [] && w[0] !in LowerStr(a)
    ensures ReplaceWord(a + b, afterWord, w, rep)
         == a + ReplaceWord(b, if a == [] then afterWord else IsWordChar(a[|a| - 1]), w, rep)
  {
    forall i | 0 <= i < |a| ensures Lower(a[i]) != w[0] {
      assert LowerStr(a)[i] == Lower(a[i]);
    }
    ReplaceWordSkip(a, b, afterWord, w, rep);
  }

  /** A word followed by a further word character is no whole word: the word
      step copies its first letter and, when the rest lacks that letter, all
      of it. */
  lemma WordRunsOn(s: string, w: string, rep: string)
    requires IsWord(w) && |w| < |s| && IsWordChar(s[|w|]) && w[0] !in LowerStr(s[1..])
    ensures ReplaceWord(s, false, w, rep) == s
  {
    assert !WordMatch(s, false, w);
    ReplaceWordLacking(s[1..], IsWordChar(s[0]), w, rep);
    assert s == [s[0]] + s[1..];
  }

  /** "Lush lawn" passes every step after the first unchanged. */
  lemma LushLawnKept(s: string)
    requires s == "lush lawn"
    ensures ReplaceWord(s, false, "pool", "lush lawn") == s
    ensures var garden := ReplaceAll(s, "putting green", "garden area");
      var paved := ReplaceAll(garden, "basketball court", "paved area");
      var yard := ReplaceAll(paved, "backyard", "yard");
      var landscaped := ReplaceAll(yard, "lake", "landscaped area");
      ReplaceAll(landscaped, "boat", "garden shed") == s
  {
    LoweredIdentity(s);
    assert 'p' !in s && 'b' !in s && 'k' !in s;
    ReplaceWordLacking(s, false, "pool", "lush lawn");
    GroundsUnchanged(s, 0);
  }

  lemma SwimmingPoolBecomesLawnFrom(s: string)
    requires s == "Swimming Pool"
    ensures SanitizeForFrontView(s) == "lush lawn"
  {
    assert LowerStr(s) == "swimming pool" by {
      assert Lower('S') == 's' && Lower('P') == 'p';
    }
    ReplaceAllWhole(s, "swimming pool", "lush lawn");
    LushLawnKept("lush lawn");
  }

  /** A swimming pool, in any letter case, becomes a lush lawn, not a
      "swimming lush lawn". */
  lemma SwimmingPoolBecomesLawn()
    ensures SanitizeForFrontView("Swimming Pool") == "lush lawn"
  {
    SwimmingPoolBecomesLawnFrom("Swimming Pool");
  }

  /** The word alone is replaced whole. */
  lemma ReplaceWordWhole(w: string, rep: string)
    requires w != [] && LowerStr(w) == w
    ensures ReplaceWord(w, false, w, rep) == rep
  {
    assert w[..|w|] == w;
    assert w[|w|..] == [];
    assert rep + [] == rep;
  }

  lemma WordStepAloneFrom(a: string, b: string)
    requires a == "swimming " && b == "pool"
    ensures ReplaceWord(a + b, false, b, "lush lawn") == a + "lush lawn"
  {
    LoweredIdentity(a);
    LoweredIdentity(b);
    assert 'p' !in a;
    ReplaceWordSkipLacking(a, b, false, b, "lush lawn");
    ReplaceWordWhole(b, "lush lawn");
  }

  /** Run first, the word step alone would have left "swimming" behind: the
      order of the two pool steps matters. */
  lemma WordStepAloneKeepsSwimming()
    ensures ReplaceWord("swimming " + "pool", false, "pool", "lush lawn") == "swimming " + "lush lawn"
  {
    WordStepAloneFrom("swimming ", "pool");
  }

  /** "pool" inside a longer word is not a whole word: the word step keeps
      "poolside". */
  lemma PoolsideKeptByWordStep(s: string)
    requires s == "poolside"
    ensures ReplaceWord(s, false, "pool", "lush lawn") == s
  {
    var t := s[1..];
    assert t == "oolside";
    LoweredIdentity(t);
    assert 'p' !in t;
    assert IsWordChar(s[4]);
    WordRunsOn(s, "pool", "lush lawn");
  }

  /** The first step keeps "poolside": it has no `w`. */
  lemma PoolsideKeptByFirstStep(s: string)
    requires s == "poolside"
    ensures ReplaceAll(s, "swimming pool", "lush lawn") == s
  {
    LoweredIdentity(s);
    assert "swimming pool"[1] == 'w' && 'w' !in s;
    ReplaceAllLacking(s, "swimming pool", "lush lawn", 1);
  }

  /** The substring steps after the word step keep "poolside": it has no `u`,
      `b` or `k`. */
  lemma PoolsideKeptByLaterSteps(s: string)
    requires s == "poolside"
    ensures var garden := ReplaceAll(s, "putting green", "garden area");
      var paved := ReplaceAll(garden, "basketball court", "paved area");
      var yard := ReplaceAll(paved, "backyard", "yard");
      var landscaped := ReplaceAll(yard, "lake", "landscaped area");
      ReplaceAll(landscaped, "boat", "garden shed") == s
  {
    LoweredIdentity(s);
    assert "putting green"[1] == 'u' && 'u' !in s && 'b' !in s && 'k' !in s;
    GroundsUnchanged(s, 1);
  }

  /** "pool" inside a longer word is not a whole word: the word step, and the
      whole sanitizer, keep "poolside". */
  lemma PoolsideKept()
    ensures ReplaceWord("poolside", false, "pool", "lush lawn") == "poolside"
    ensures SanitizeForFrontView("poolside") == "poolside"
  {
    PoolsideKeptByFirstStep("poolside");
    PoolsideKeptByWordStep("poolside");
    PoolsideKeptByLaterSteps("poolside");
  }

  /** No match of "swimming pool" starts in the first part of the splice. */
  lemma SplicedNoEarlyMatch(a: string, b: string)
    requires a == "swimming " + "poo" && b == "swimming pool"
    ensures forall i | 0 <= i < |a| :: !MatchesAt((a + b)[i..], b)
  {
    var s := a + b;
    forall i | 0 <= i < |a| ensures !MatchesAt(s[i..], b) {
      if i == 0 {
        assert s[0..][12] == 's';
        NoMatchByChar(s[0..], b, 12);
      } else {
        assert s[i..][0] == a[i];
        NoMatchByChar(s[i..], b, 0);
      }
    }
  }

  /** The first step of the splice: only the second "swimming pool" is replaced. */
  lemma SplicedFirstStep(a: string, b: string)
    requires a == "swimming " + "poo" && b == "swimming pool"
    ensures ReplaceAll(a + b, b, "lush lawn") == a + "lush lawn"
  {
    SplicedNoEarlyMatch(a, b);
    ReplaceAllSkip(a, b, b, "lush lawn");
    SwimmingPoolWhole(b);
  }

  /** "swimming pool" on its own is replaced as a whole. */
  lemma SwimmingPoolWhole(b: string)
    requires b == "swimming pool"
    ensures ReplaceAll(b, b, "lush lawn") == "lush lawn"
  {
    LoweredIdentity(b);
    ReplaceAllWhole(b, b, "lush lawn");
  }

  /** Lower-casing works piece by piece. */
  lemma LowerStrAppend(a: string, b: string)
    ensures LowerStr(a + b) == LowerStr(a) + LowerStr(b)
  {
    FoldAppend(Lowered, a, b);
  }

  /** The word step keeps the result of the splice: its "pool" runs on into
      "lush". */
  lemma SplicedWordStep(s: string, p: string, l: string)
    requires s == "swimming " && p == "poo" && l == "lush lawn"
    ensures ReplaceWord(s + p + l, false, "pool", l) == s + p + l
  {
    LoweredIdentity(s);
    assert 'p' !in s;
    assert s + p + l == s + (p + l);
    ReplaceWordSkipLacking(s, p + l, false, "pool", l);
    var t := (p + l)[1..];
    assert t == p[1..] + l;
    LoweredIdentity(p[1..]);
    LoweredIdentity(l);
    LowerStrAppend(p[1..], l);
    assert 'p' !in p[1..] + l;
    assert (p + l)[4] == l[1];
    WordRunsOn(p + l, "pool", l);
  }

  /** The substring steps after the word step keep the result of the splice:
      it has no `t`, `b` or `k`. */
  lemma SplicedLaterSteps(s: string, p: string, l: string)
    requires s == "swimming " && p == "poo" && l == "lush lawn"
    ensures var x := s + p + l;
      var garden := ReplaceAll(x, "putting green", "garden area");
      var paved := ReplaceAll(garden, "basketball court", "paved area");
      var yard := ReplaceAll(paved, "backyard", "yard");
      var landscaped := ReplaceAll(yard, "lake", "landscaped area");
      ReplaceAll(landscaped, "boat", "garden shed") == x
  {
    LoweredIdentity(s);
    LoweredIdentity(p);
    LoweredIdentity(l);
    LowerStrAppend(s, p);
    LowerStrAppend(s + p, l);
    var x := s + p + l;
    assert LowerStr(x) == s + p + l;
    assert 't' !in s && 't' !in p && 't' !in l;
    assert 'b' !in s && 'b' !in p && 'b' !in l;
    assert 'k' !in s && 'k' !in p && 'k' !in l;
    assert "putting green"[2] == 't';
    GroundsUnchanged(x, 2);
  }

  /** The two pool steps on the splice. */
  lemma SplicedPoolSteps(s: string, p: string, l: string)
    requires s == "swimming " && p == "poo" && l == "lush lawn"
    ensures ReplaceWord(ReplaceAll(s + p + "swimming pool", "swimming pool", l), false, "pool", l)
         == s + p + l
  {
    SplicedFirstStep(s + p, "swimming pool");
    SplicedWordStep(s, p, l);
  }

  /** The spliced text still says "swimming pool" after sanitizing. */
  lemma SplicedHasSwimmingPool(s: string, p: string, l: string)
    requires s == "swimming " && p == "poo" && l == "lush lawn"
    ensures HasText(s + p + l, "swimming pool")
  {
    var x, pat := s + p + l, "swimming pool";
    assert pat == s + p + "l";
    assert x[..|pat|] == s + p + l[..1];
    LoweredIdentity(pat);
    assert LowerStr(x[..|pat|]) == pat;
    MatchOccurs(x, pat);
  }

  /** The first step scans left to right and resumes after each replacement,
      so a swimming pool can be spliced together from the text around one it
      replaces: the sanitized text still says "swimming pool". */
  lemma SwimmingPoolSurvives()
    ensures SanitizeForFrontView("swimming " + "poo" + "swimming pool") == "swimming " + "poo" + "lush lawn"
    ensures HasText(SanitizeForFrontView("swimming " + "poo" + "swimming pool"), "swimming pool")
  {
    SplicedPoolSteps("swimming ", "poo", "lush lawn");
    SplicedLaterSteps("swimming ", "poo", "lush lawn");
    SplicedHasSwimmingPool("swimming ", "poo", "lush lawn");
  }
}
