/**
 * `cleanPromptForDisplay` (App.tsx:60-81): the prompt that the image service
 * echoes back is shown to the user without the rule clauses that the builders
 * appended.  Ten removals are global patterns `\s*LITERAL\s*` (a literal together
 * with the whitespace around it), three are plain literal removals built with
 * `escapeRegExp`, and the result is normalised: runs of whitespace become one
 * space and the ends are trimmed.
 */
module Cleaner {
  import opened Text
  import opened Rules
  import opened Escape

  // ---------------------------------------------------------------------------
  // The two removal shapes

  /** Global replacement of the pattern `\s*LIT\s*` by nothing, for a literal that does not start with
      whitespace: scanning left to right, a whitespace run followed by the
      literal is deleted together with the whitespace run after it. */
  function RemoveSpaced(s: string, lit: string): string
    decreases |s|
  {
    if s == [] then []
    else
      var k := SpaceRun(s);
      if lit != [] && StartsWith(s[k..], lit) then
        var rest := s[k + |lit|..];
        RemoveSpaced(rest[SpaceRun(rest)..], lit)
      else [s[0]] + RemoveSpaced(s[1..], lit)
  }

  /** `s.replace(new RegExp(escapeRegExp(lit), 'g'), '')`: every occurrence of
      `lit`, found left to right without overlap, is deleted. */
  function RemoveAll(s: string, lit: string): string
    decreases |s|
  {
    if s == [] then []
    else if lit != [] && StartsWith(s, lit) then RemoveAll(s[|lit|..], lit)
    else [s[0]] + RemoveAll(s[1..], lit)
  }

  datatype Removal = Spaced(lit: string) | Literal(lit: string)

  function Apply(r: Removal, s: string): string {
    match r
    case Spaced(lit) => RemoveSpaced(s, lit)
    case Literal(lit) => RemoveAll(s, lit)
  }

  /** A sequence of removals, applied first to last. */
  datatype Removals = Done | Then(first: Removal, rest: Removals)

  function ApplyAll(rs: Removals, s: string): string
    decreases rs
  {
    match rs
    case Done => s
    case Then(r, rest) => ApplyAll(rest, Apply(r, s))
  }

  /** The removals in the order the cleaner applies them, in four groups.  The
      first pattern spells the front-exterior clause with `IGIGNORE`, so it is
      not the clause's own text. */
  const Catalog: Removals :=
    Then(Spaced(FrontExteriorPattern),
    Then(Spaced(NoPoolInGarageText),
    Then(Spaced(NoGarageInBackyardText), CatalogFrom3)))

  const CatalogFrom3: Removals :=
    Then(Spaced(NoLakeInFrontText),
    Then(Spaced(ProjectorText),
    Then(Spaced(TheaterSeatingText), CatalogFrom6)))

  const CatalogFrom6: Removals :=
    Then(Spaced(RanchStyleText),
    Then(Spaced(CarPlacementText),
    Then(Spaced(NoPuttingGreenInRoomText), CatalogFrom9)))

  const CatalogFrom9: Removals :=
    Then(Spaced(NoFireplaceAboveBedText),
    Then(Literal(Clause(BackExteriorPoolText)),
    Then(Literal(Clause(BackExteriorLakeAndBoatText)),
    Then(Literal(NightModeText), Done))))

  /** What the cleaner returns: no two adjacent whitespace characters and no
      whitespace at either end. */
  function Clean(prompt: string): (r: string)
    ensures NoDoubleSpace(r) && Trimmed(r)
  {
    NormalizeShape(ApplyAll(Catalog, prompt));
    Normalize(ApplyAll(Catalog, prompt))
  }


  // ---------------------------------------------------------------------------
  // Removals that find nothing

  lemma {:induction false} RemoveSpacedNoMatch(s: string, lit: string)
    requires !Occurs(s, lit)
    ensures RemoveSpaced(s, lit) == s
    decreases |s|
  {
    if s != [] {
      var k := SpaceRun(s);
      if lit != [] && StartsWith(s[k..], lit) {
        assert s[k..][..|lit|] == s[k..k + |lit|];
        OccursAt(s, lit, k);
      } else {
        RemoveSpacedNoMatch(s[1..], lit);
        assert [s[0]] + s[1..] == s;
      }
    }
  }

  lemma {:induction false} RemoveAllNoMatch(s: string, lit: string)
    requires !Occurs(s, lit)
    ensures RemoveAll(s, lit) == s
    decreases |s|
  {
    if s != [] {
      RemoveAllNoMatch(s[1..], lit);
      assert [s[0]] + s[1..] == s;
    }
  }

  lemma ApplyNoMatch(r: Removal, s: string)
    requires !Occurs(s, r.lit)
    ensures Apply(r, s) == s
  {
    match r
    case Spaced(lit) => RemoveSpacedNoMatch(s, lit);
    case Literal(lit) => RemoveAllNoMatch(s, lit);
  }

  /** A text that holds none of the literals passes the removals unchanged. */
  /** No literal of any removal in `rs` occurs in `s`. */
  predicate NoneOccur(rs: Removals, s: string)
    decreases rs
  {
    match rs
    case Done => true
    case Then(r, rest) => !Occurs(s, r.lit) && NoneOccur(rest, s)
  }

  /** A text that holds none of the literals passes the removals unchanged. */
  lemma {:induction false} ApplyAllNoMatch(rs: Removals, s: string)
    requires NoneOccur(rs, s)
    ensures ApplyAll(rs, s) == s
    decreases rs
  {
    if rs.Then? {
      ApplyNoMatch(rs.first, s);
      ApplyAllNoMatch(rs.rest, s);
    }
  }

  /** A prefix of a text without the literals is without them too. */
  lemma {:induction false} NoneOccurPrefix(rs: Removals, s: string, j: nat)
    requires NoneOccur(rs, s) && j <= |s|
    ensures NoneOccur(rs, s[..j])
    decreases rs
  {
    if rs.Then? {
      NotOccursPrefix(s, rs.first.lit, j);
      NoneOccurPrefix(rs.rest, s, j);
    }
  }

  // ---------------------------------------------------------------------------
  // A clause appended to a text that holds no rule literal

  /** `lit` can neither occur in `t` nor reach into it across a paragraph
      break: either it has no line break at all, or it starts with the
      paragraph break and the rest of it has no line break. */
  predicate ApartFrom(lit: string, t: string) {
    lit != [] &&
    (('\n' !in lit && !Occurs(t, lit)) ||
     (|lit| > 2 && lit[..2] == "\n\n" && '\n' !in lit[2..] && !Occurs(t, lit[2..])))
  }

  /** Where a paragraph-led literal can sit in `base + Clause(t)`. */
  lemma ParagraphMatch(base: string, t: string, lit: string, i: nat)
    requires |lit| > 2 && lit[..2] == "\n\n"
    requires i + |lit| <= |base + Clause(t)| && (base + Clause(t))[i..i + |lit|] == lit
    ensures Occurs(base, lit) || Occurs(t, lit[2..]) || '\n' in lit[2..] || '\n' in t
  {
    var x := base + Clause(t);
    var u := lit[2..];
    if i + |lit| <= |base| {
      assert base[i..i + |lit|] == x[i..i + |lit|];
      OccursAt(base, lit, i);
    } else if i == |base| {
      assert t[..|u|] == x[i + 2..i + |lit|];
      assert x[i + 2..i + |lit|] == lit[2..];
      OccursAt(t, u, 0);
    } else if i + 1 < |base| {
      CharAt(x, lit, i, |base| - i);
      assert u[|base| - i - 2] == lit[|base| - i];
    } else if i + 1 == |base| {
      CharAt(x, lit, i, 2);
      assert u[0] == lit[2];
    } else if i == |base| + 1 {
      CharAt(x, lit, i, 1);
      assert x[i + 1] == t[0];
    } else {
      CharAt(x, lit, i, 0);
      assert x[i] == t[i - |base| - 2];
    }
  }

  /** Appending a clause whose text no literal can see keeps a literal absent. */
  lemma ClauseKeepsAbsence(base: string, t: string, lit: string)
    requires '\n' !in t && !Occurs(base, lit) && ApartFrom(lit, t)
    ensures !Occurs(base + Clause(t), lit)
  {
    if '\n' !in lit && !Occurs(t, lit) {
      NotOccursCons('\n', t, lit);
      NotOccursCons('\n', "\n" + t, lit);
      assert "\n" + ("\n" + t) == Clause(t);
      NotOccursAppend(base, Clause(t), lit);
    } else if Occurs(base + Clause(t), lit) {
      var i := OccursWitness(base + Clause(t), lit);
      ParagraphMatch(base, t, lit, i);
    }
  }

  /** A match of `lit` that starts before the clause lies inside `base`, or
      `lit` has a line break. */
  lemma EarlySpacedMatch(a: string, lit: string, k: nat)
    requires k < |a| && StartsWith((a + Clause(lit))[k..], lit)
    ensures Occurs(a, lit) || '\n' in lit
  {
    var s := a + Clause(lit);
    assert s[k..][..|lit|] == s[k..k + |lit|];
    if k + |lit| <= |a| {
      assert a[k..k + |lit|] == s[k..k + |lit|];
      OccursAt(a, lit, k);
    } else {
      CharAt(s, lit, k, |a| - k);
    }
  }

  /** After nothing but whitespace, the clause is deleted with that whitespace. */
  lemma RemoveSpacedClauseSpaces(a: string, lit: string)
    requires lit != [] && !IsSpace(lit[0]) && AllSpace(a)
    ensures RemoveSpaced(a + Clause(lit), lit) == []
  {
    var s := a + Clause(lit);
    assert s == (a + "\n\n") + lit;
    SpaceRunSpaces(a + "\n\n", lit);
    assert s[|a| + 2..] == lit;
    assert s[|a| + 2 + |lit|..] == [];
  }

  /** Before the clause, a text without the literal keeps its first character. */
  lemma RemoveSpacedClauseStep(a: string, lit: string)
    requires lit != [] && !IsSpace(lit[0]) && '\n' !in lit
    requires !Occurs(a, lit) && !AllSpace(a)
    ensures RemoveSpaced(a + Clause(lit), lit) == [a[0]] + RemoveSpaced(a[1..] + Clause(lit), lit)
  {
    var s := a + Clause(lit);
    SpaceRunAppend(a, Clause(lit));
    var k := SpaceRun(a);
    if StartsWith(s[k..], lit) {
      EarlySpacedMatch(a, lit, k);
    }
    assert s[1..] == a[1..] + Clause(lit);
  }

  /** The spaced removal of a pattern deletes the pattern's own clause at the
      end of a text, together with the whitespace in front of it. */
  lemma {:induction false} RemoveSpacedClause(a: string, lit: string)
    requires lit != [] && !IsSpace(lit[0]) && '\n' !in lit
    requires !Occurs(a, lit)
    ensures RemoveSpaced(a + Clause(lit), lit) == TrimEnd(a)
    decreases |a|
  {
    if AllSpace(a) {
      RemoveSpacedClauseSpaces(a, lit);
      TrimEndAllSpace(a);
    } else {
      RemoveSpacedClauseStep(a, lit);
      RemoveSpacedClause(a[1..], lit);
      TrimEndCons(a);
    }
  }

  /** A paragraph-led literal at the end of a text is removed and nothing else. */
  lemma EarlyParagraphMatch(a: string, lit: string)
    requires a != [] && |lit| > 2 && lit[..2] == "\n\n"
    requires StartsWith(a + lit, lit)
    ensures Occurs(a, lit) || '\n' in lit[2..]
  {
    var s := a + lit;
    assert s[..|lit|] == s[0..|lit|];
    if |lit| <= |a| {
      assert a[0..|lit|] == s[0..|lit|];
      OccursAt(a, lit, 0);
    } else if |a| >= 2 {
      CharAt(s, lit, 0, |a|);
      assert lit[2..][|a| - 2] == lit[|a|];
    } else {
      CharAt(s, lit, 0, 2);
      assert lit[2..][0] == lit[2];
    }
  }

  lemma {:induction false} RemoveAllParagraphTail(a: string, lit: string)
    requires |lit| > 2 && lit[..2] == "\n\n" && '\n' !in lit[2..]
    requires !Occurs(a, lit)
    ensures RemoveAll(a + lit, lit) == a
    decreases |a|
  {
    if a == [] {
      assert a + lit == lit && lit[|lit|..] == [];
    } else {
      if StartsWith(a + lit, lit) {
        EarlyParagraphMatch(a, lit);
      }
      assert (a + lit)[1..] == a[1..] + lit;
      RemoveAllParagraphTail(a[1..], lit);
      assert [a[0]] + a[1..] == a;
    }
  }

  // ---------------------------------------------------------------------------
  // The night sentence: a text whose only full stop is its last character

  predicate EndsWithOnlyStop(n: string) {
    n != [] && n[|n| - 1] == '.' && '.' !in n[..|n| - 1]
  }

  /** `lit` ends with a full stop and neither of `lit`, `n` is a suffix of the other. */
  predicate DotApart(lit: string, n: string) {
    lit != [] && lit[|lit| - 1] == '.' && !EndsWith(lit, n) && !EndsWith(n, lit)
  }

  /** After `base + " "`, the only full stop of the night text is its last character. */
  lemma LastStop(base: string, n: string, k: nat)
    requires EndsWithOnlyStop(n) && |base| <= k < |base + " " + n|
    ensures (base + " " + n)[k] == '.' ==> k == |base| + |n|
  {
    if |base| < k < |base| + |n| {
      assert (base + " " + n)[k] == n[..|n| - 1][k - |base| - 1];
    }
  }

  lemma DotMatch(base: string, n: string, lit: string, i: nat)
    requires EndsWithOnlyStop(n) && lit != [] && lit[|lit| - 1] == '.'
    requires i + |lit| <= |base + " " + n| && (base + " " + n)[i..i + |lit|] == lit
    ensures Occurs(base, lit) || EndsWith(lit, n) || EndsWith(n, lit)
  {
    var x := base + " " + n;
    if i + |lit| <= |base| {
      assert base[i..i + |lit|] == x[i..i + |lit|];
      OccursAt(base, lit, i);
    } else {
      CharAt(x, lit, i, |lit| - 1);
      LastStop(base, n, i + |lit| - 1);
      assert x[|x| - |n|..] == n;
      SuffixesNest(x, lit, n);
    }
  }

  /** Appending the night sentence keeps a full-stop literal absent. */
  lemma DotKeepsAbsence(base: string, n: string, lit: string)
    requires EndsWithOnlyStop(n) && !Occurs(base, lit) && DotApart(lit, n)
    ensures !Occurs(base + " " + n, lit)
  {
    if Occurs(base + " " + n, lit) {
      var i := OccursWitness(base + " " + n, lit);
      DotMatch(base, n, lit, i);
    }
  }

  lemma SnocMatch(a: string, c: char, p: string)
    requires Occurs(a + [c], p) && p != []
    ensures Occurs(a, p) || p[|p| - 1] == c
  {
    var i := OccursWitness(a + [c], p);
    if i + |p| <= |a| {
      assert a[i..i + |p|] == (a + [c])[i..i + |p|];
      OccursAt(a, p, i);
    } else {
      CharAt(a + [c], p, i, |p| - 1);
    }
  }

  lemma NotOccursSnoc(a: string, c: char, p: string)
    requires !Occurs(a, p) && p != [] && p[|p| - 1] != c
    ensures !Occurs(a + [c], p)
  {
    if Occurs(a + [c], p) {
      SnocMatch(a, c, p);
    }
  }

  lemma EarlyDotMatch(a: string, n: string)
    requires a != [] && n != [] && n[|n| - 1] == '.' && StartsWith(a + n, n)
    ensures Occurs(a, n) || '.' in n[..|n| - 1]
  {
    var s := a + n;
    assert s[..|n|] == s[0..|n|];
    if |n| <= |a| {
      assert a[0..|n|] == s[0..|n|];
      OccursAt(a, n, 0);
    } else {
      CharAt(s, n, 0, |n| - 1);
      assert n[..|n| - 1][|n| - 1 - |a|] == n[|n| - 1 - |a|];
    }
  }

  lemma {:induction false} RemoveAllDotTail(a: string, n: string)
    requires EndsWithOnlyStop(n) && !Occurs(a, n)
    ensures RemoveAll(a + n, n) == a
    decreases |a|
  {
    if a == [] {
      assert a + n == n && n[|n|..] == [];
    } else {
      if StartsWith(a + n, n) {
        EarlyDotMatch(a, n);
      }
      assert (a + n)[1..] == a[1..] + n;
      RemoveAllDotTail(a[1..], n);
      assert [a[0]] + a[1..] == a;
    }
  }

  // ---------------------------------------------------------------------------
  // Round trips over any sequence of removals

  /** Appending `c` to a text never creates an occurrence of `lit`. */
  ghost predicate NoNewMatch(lit: string, c: string) {
    forall b {:trigger Occurs(b + c, lit)} :: !Occurs(b, lit) ==> !Occurs(b + c, lit)
  }

  lemma ApartNoNewMatch(lit: string, t: string)
    requires '\n' !in t && ApartFrom(lit, t)
    ensures NoNewMatch(lit, Clause(t))
  {
    forall b | !Occurs(b, lit)
      ensures !Occurs(b + Clause(t), lit)
    {
      ClauseKeepsAbsence(b, t, lit);
    }
  }

  lemma DotNoNewMatch(lit: string, n: string)
    requires EndsWithOnlyStop(n) && DotApart(lit, n)
    ensures NoNewMatch(lit, " " + n)
  {
    forall b | !Occurs(b, lit)
      ensures !Occurs(b + (" " + n), lit)
    {
      DotKeepsAbsence(b, n, lit);
      assert b + " " + n == b + (" " + n);
    }
  }

  /** No removal in `rs` can see the appended text `c`. */
  ghost predicate Keeps(rs: Removals, c: string)
    decreases rs
  {
    match rs
    case Done => true
    case Then(r, rest) => NoNewMatch(r.lit, c) && Keeps(rest, c)
  }

  /** `rs` contains `target`, and no removal before it can see the appended
      text `c`. */
  ghost predicate ErasedBy(rs: Removals, c: string, target: Removal)
    decreases rs
  {
    match rs
    case Done => false
    case Then(r, rest) => r == target || (NoNewMatch(r.lit, c) && ErasedBy(rest, c, target))
  }

  /** `target` is the last removal of `rs`, and no removal before it can see
      the appended text `c`. */
  ghost predicate ErasedLast(rs: Removals, c: string, target: Removal)
    decreases rs
  {
    match rs
    case Done => false
    case Then(r, rest) =>
      (r == target && rest == Done) || (NoNewMatch(r.lit, c) && ErasedLast(rest, c, target))
  }

  /** A clause that no removal can see passes the removals unchanged. */
  lemma {:induction false} ClauseKept(rs: Removals, base: string, c: string)
    requires NoneOccur(rs, base) && Keeps(rs, c)
    ensures ApplyAll(rs, base + c) == base + c
    decreases rs
  {
    if rs.Then? {
      ApplyNoMatch(rs.first, base + c);
      ClauseKept(rs.rest, base, c);
    }
  }

  /** The spaced pattern of a clause deletes the clause and the whitespace in
      front of it, when no earlier removal can see the clause. */
  lemma {:induction false} SpacedClauseRemoved(rs: Removals, base: string, t: string)
    requires t != [] && !IsSpace(t[0]) && '\n' !in t
    requires NoneOccur(rs, base) && ErasedBy(rs, Clause(t), Spaced(t))
    ensures ApplyAll(rs, base + Clause(t)) == TrimEnd(base)
    decreases rs
  {
    if rs.first == Spaced(t) {
      RemoveSpacedClause(base, t);
      TrimEndSplit(base);
      NoneOccurPrefix(rs.rest, base, |TrimEnd(base)|);
      ApplyAllNoMatch(rs.rest, TrimEnd(base));
    } else {
      ApplyNoMatch(rs.first, base + Clause(t));
      SpacedClauseRemoved(rs.rest, base, t);
    }
  }

  /** The literal removal of a paragraph clause deletes exactly that clause,
      when no earlier removal can see it. */
  lemma {:induction false} LiteralClauseRemoved(rs: Removals, base: string, t: string)
    requires t != [] && '\n' !in t
    requires NoneOccur(rs, base) && ErasedBy(rs, Clause(t), Literal(Clause(t)))
    ensures ApplyAll(rs, base + Clause(t)) == base
    decreases rs
  {
    if rs.first == Literal(Clause(t)) {
      assert Clause(t)[2..] == t;
      RemoveAllParagraphTail(base, Clause(t));
      ApplyAllNoMatch(rs.rest, base);
    } else {
      ApplyNoMatch(rs.first, base + Clause(t));
      LiteralClauseRemoved(rs.rest, base, t);
    }
  }

  /** The night sentence as the last removal deletes the night clause and
      leaves the separating space. */
  lemma {:induction false} NightClauseRemoved(rs: Removals, base: string, n: string)
    requires EndsWithOnlyStop(n)
    requires NoneOccur(rs, base) && ErasedLast(rs, " " + n, Literal(n))
    ensures ApplyAll(rs, base + (" " + n)) == base + " "
    decreases rs
  {
    if rs.first == Literal(n) && rs.rest == Done {
      NotOccursSnoc(base, ' ', n);
      assert base + [' '] == base + " ";
      assert base + (" " + n) == (base + " ") + n;
      RemoveAllDotTail(base + " ", n);
    } else {
      ApplyNoMatch(rs.first, base + (" " + n));
      NightClauseRemoved(rs.rest, base, n);
    }
  }

  // ---------------------------------------------------------------------------
  // The cleaner on texts built from rule clauses

  /** No removal literal of the cleaner occurs in `s`. */
  predicate NoRuleText(s: string) {
    NoneOccur(Catalog, s)
  }

  /** A text without rule literals is only normalised. */
  lemma CleanWithoutRules(s: string)
    requires NoRuleText(s)
    ensures Clean(s) == Normalize(s)
  {
    ApplyAllNoMatch(Catalog, s);
  }

  /** Cleaning a cleaned text changes nothing more, unless the normalisation
      itself joined a rule literal together. */
  lemma CleanIdempotent(s: string)
    requires NoRuleText(Clean(s))
    ensures Clean(Clean(s)) == Clean(s)
  {
    CleanWithoutRules(Clean(s));
    NormalizeIdentity(Clean(s));
  }

  /** A clause removed by its own spaced pattern comes off again. */
  lemma CleanSpacedClause(base: string, t: string)
    requires NoRuleText(base)
    requires t != [] && !IsSpace(t[0]) && '\n' !in t
    requires ErasedBy(Catalog, Clause(t), Spaced(t))
    ensures Clean(base + Clause(t)) == Clean(base)
  {
    SpacedClauseRemoved(Catalog, base, t);
    CleanWithoutRules(base);
    NormalizeTrimEnd(base);
  }

  /** A clause removed as an escaped literal comes off again. */
  lemma CleanLiteralClause(base: string, t: string)
    requires NoRuleText(base)
    requires t != [] && '\n' !in t
    requires ErasedBy(Catalog, Clause(t), Literal(Clause(t)))
    ensures Clean(base + Clause(t)) == Clean(base)
  {
    LiteralClauseRemoved(Catalog, base, t);
    CleanWithoutRules(base);
  }

  /** The night sentence, appended after a space, comes off again. */
  lemma CleanNightClause(base: string, n: string)
    requires NoRuleText(base) && EndsWithOnlyStop(n)
    requires ErasedLast(Catalog, " " + n, Literal(n))
    ensures Clean(base + " " + n) == Clean(base)
  {
    NightClauseRemoved(Catalog, base, n);
    assert base + " " + n == base + (" " + n);
    CleanWithoutRules(base);
    NormalizeAppendSpace(base);
  }

  /** A clause that no removal can see is only normalised. */
  lemma CleanKeptClause(base: string, c: string)
    requires NoRuleText(base) && Keeps(Catalog, c)
    ensures Clean(base + c) == Normalize(base + c)
  {
    ClauseKept(Catalog, base, c);
  }

  // ---------------------------------------------------------------------------
  // The cleaner as written

  lemma ApplyGroup(a: Removal, b: Removal, c: Removal, rest: Removals, s: string)
    ensures ApplyAll(Then(a, Then(b, Then(c, rest))), s) == ApplyAll(rest, Apply(c, Apply(b, Apply(a, s))))
  {
    assert ApplyAll(Then(a, Then(b, Then(c, rest))), s) == ApplyAll(Then(b, Then(c, rest)), Apply(a, s));
    assert ApplyAll(Then(b, Then(c, rest)), Apply(a, s)) == ApplyAll(Then(c, rest), Apply(b, Apply(a, s)));
  }

  /** Thirteen removals in the order of the source, the last three through an
      escaped pattern, then the normalisation. */
  method CleanPromptForDisplay(prompt: string) returns (cleaned: string)
    ensures cleaned == Clean(prompt)
  {
    cleaned := prompt;
    cleaned := RemoveSpaced(cleaned, FrontExteriorPattern);
    cleaned := RemoveSpaced(cleaned, NoPoolInGarageText);
    cleaned := RemoveSpaced(cleaned, NoGarageInBackyardText);
    ghost var afterFront := cleaned;
    cleaned := RemoveSpaced(cleaned, NoLakeInFrontText);
    cleaned := RemoveSpaced(cleaned, ProjectorText);
    cleaned := RemoveSpaced(cleaned, TheaterSeatingText);
    ghost var afterRoom := cleaned;
    cleaned := RemoveSpaced(cleaned, RanchStyleText);
    cleaned := RemoveSpaced(cleaned, CarPlacementText);
    cleaned := RemoveSpaced(cleaned, NoPuttingGreenInRoomText);
    ghost var afterLayout := cleaned;
    cleaned := RemoveSpaced(cleaned, NoFireplaceAboveBedText);
    var pool := EscapeRegExp(Clause(BackExteriorPoolText));
    EscapeRoundTrip(Clause(BackExteriorPoolText));
    cleaned := RemoveAll(cleaned, LiteralOf(pool).value);
    var lake := EscapeRegExp(Clause(BackExteriorLakeAndBoatText));
    EscapeRoundTrip(Clause(BackExteriorLakeAndBoatText));
    cleaned := RemoveAll(cleaned, LiteralOf(lake).value);
    var night := EscapeRegExp(NightModeText);
    EscapeRoundTrip(NightModeText);
    cleaned := RemoveAll(cleaned, LiteralOf(night).value);
    ghost var removed := cleaned;
    cleaned := Trim(Collapse(cleaned));
    ApplyGroup(Spaced(FrontExteriorPattern), Spaced(NoPoolInGarageText), Spaced(NoGarageInBackyardText), CatalogFrom3, prompt);
    ApplyGroup(Spaced(NoLakeInFrontText), Spaced(ProjectorText), Spaced(TheaterSeatingText), CatalogFrom6, afterFront);
    ApplyGroup(Spaced(RanchStyleText), Spaced(CarPlacementText), Spaced(NoPuttingGreenInRoomText), CatalogFrom9, afterRoom);
    ApplyGroup(Spaced(NoFireplaceAboveBedText), Literal(Clause(BackExteriorPoolText)), Literal(Clause(BackExteriorLakeAndBoatText)),
               Then(Literal(NightModeText), Done), afterLayout);
    assert ApplyAll(Catalog, prompt) == removed;
  }
}
