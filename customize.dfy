/**
 * The customizations of one regeneration rendered as prompt text
 * (App.tsx:287-312): every entry except the described change becomes
 * "key with spaces: value", empty values are dropped, the entries are joined
 * with ". ", and a non-empty described change is added after them as
 * ". Additional modifications: ...".  The resets of the customizations after
 * selecting an area and after a successful regeneration (App.tsx:155-158,
 * App.tsx:382) are `Put` and the empty sequence.
 */
module Customize {
  import opened Text
  import opened Wrappers
  import opened Types

  const DescribedChangeKey: string := "described_change"

  /** The error that `.trim()` raises on a described change that is a list. */
  datatype Failure = TrimOfList

  // ---------------------------------------------------------------------------
  // The customizations object

  predicate KeysUnique(c: Customizations) {
    forall i, j | 0 <= i < j < |c| :: c[i].0 != c[j].0
  }

  predicate HasKey(c: Customizations, key: string) {
    exists i | 0 <= i < |c| :: c[i].0 == key
  }

  /** `c[key]`: the value of the first entry with that key. */
  function Lookup(c: Customizations, key: string): (r: Option<Value>)
    ensures r.Some? <==> HasKey(c, key)
    ensures r.Some? ==> (key, r.value) in c
  {
    if c == [] then None
    else if c[0].0 == key then Some(c[0].1)
    else
      var r := Lookup(c[1..], key);
      assert HasKey(c, key) <==> HasKey(c[1..], key) by {
        if HasKey(c, key) {
          var i :| 0 <= i < |c| && c[i].0 == key;
          assert c[1..][i - 1].0 == key;
        }
        if HasKey(c[1..], key) {
          var i :| 0 <= i < |c[1..]| && c[1..][i].0 == key;
          assert c[i + 1].0 == key;
        }
      }
      r
  }

  /** `{ ...c, [key]: v }`: an existing key keeps its place and gets the new
      value, a new key is added at the end. */
  function Put(c: Customizations, key: string, v: Value): (r: Customizations)
    ensures Lookup(r, key) == Some(v)
    ensures forall k | k != key :: Lookup(r, k) == Lookup(c, k)
    ensures |c| <= |r| <= |c| + 1
    ensures forall i | 0 <= i < |c| :: r[i].0 == c[i].0
  {
    if c == [] then [(key, v)]
    else if c[0].0 == key then [(key, v)] + c[1..]
    else [c[0]] + Put(c[1..], key, v)
  }

  /** A key already present keeps its place; a new key is added at the end. */
  lemma {:induction false} PutPlaces(c: Customizations, key: string, v: Value)
    ensures HasKey(c, key) ==> |Put(c, key, v)| == |c|
    ensures !HasKey(c, key) ==> Put(c, key, v) == c + [(key, v)]
  {
    if c != [] && c[0].0 != key {
      PutPlaces(c[1..], key, v);
      assert HasKey(c, key) <==> HasKey(c[1..], key) by {
        if HasKey(c, key) {
          var i :| 0 <= i < |c| && c[i].0 == key;
          assert c[1..][i - 1].0 == key;
        }
        if HasKey(c[1..], key) {
          var i :| 0 <= i < |c[1..]| && c[1..][i].0 == key;
          assert c[i + 1].0 == key;
        }
      }
      assert [c[0]] + (c[1..] + [(key, v)]) == c + [(key, v)];
    }
  }

  /** `Put` keeps the keys of an object distinct. */
  lemma {:induction false} PutKeepsKeysUnique(c: Customizations, key: string, v: Value)
    requires KeysUnique(c)
    ensures KeysUnique(Put(c, key, v))
  {
    if c == [] {
    } else if c[0].0 == key {
      PutHeadUnique(c, key, v);
    } else {
      KeysUniqueTail(c);
      PutKeepsKeysUnique(c[1..], key, v);
      PutConsUnique(c, key, v);
    }
  }

  lemma KeysUniqueTail(c: Customizations)
    requires c != [] && KeysUnique(c)
    ensures KeysUnique(c[1..])
  {
    var rest := c[1..];
    forall i, j | 0 <= i < j < |rest| ensures rest[i].0 != rest[j].0 {
      assert rest[i] == c[i + 1] && rest[j] == c[j + 1];
    }
  }

  /** Overwriting the first entry keeps the keys distinct. */
  lemma PutHeadUnique(c: Customizations, key: string, v: Value)
    requires c != [] && c[0].0 == key && KeysUnique(c)
    ensures KeysUnique(Put(c, key, v))
  {
    var r := Put(c, key, v);
    forall i, j | 0 <= i < j < |r| ensures r[i].0 != r[j].0 {
      assert r[i].0 == c[i].0 && r[j].0 == c[j].0;
    }
  }

  /** An entry that `Put` adds past the end holds the new key. */
  lemma {:induction false} PutAddedKey(c: Customizations, key: string, v: Value)
    ensures |Put(c, key, v)| == |c| + 1 ==> Put(c, key, v)[|c|].0 == key
  {
    if c != [] && c[0].0 != key {
      PutAddedKey(c[1..], key, v);
    }
  }

  /** A first entry with another key stays distinct from the keys after it. */
  lemma PutConsUnique(c: Customizations, key: string, v: Value)
    requires c != [] && c[0].0 != key && KeysUnique(c)
    requires KeysUnique(Put(c[1..], key, v))
    ensures KeysUnique(Put(c, key, v))
  {
    var rest := c[1..];
    var t := Put(rest, key, v);
    PutAddedKey(rest, key, v);
    forall j | 0 <= j < |t| ensures t[j].0 != c[0].0 {
      if j < |rest| {
        assert t[j].0 == c[j + 1].0;
      }
    }
    ConsUnique(c[0], t);
  }

  /** An entry in front of distinct keys that differ from its own. */
  lemma ConsUnique(e: (string, Value), t: Customizations)
    requires KeysUnique(t) && forall j | 0 <= j < |t| :: t[j].0 != e.0
    ensures KeysUnique([e] + t)
  {
    var r := [e] + t;
    forall i, j | 0 <= i < j < |r| ensures r[i].0 != r[j].0 {
      assert r[j] == t[j - 1];
      if i > 0 {
        assert r[i] == t[i - 1];
      }
    }
  }

  // ---------------------------------------------------------------------------
  // Rendering the entries

  /** `key.replace(/_/g, ' ')`. */
  function Underscores(key: string): (r: string)
    ensures |r| == |key| && '_' !in r
    ensures forall i | 0 <= i < |key| :: r[i] == if key[i] == '_' then ' ' else key[i]
  {
    if key == [] then []
    else [if key[0] == '_' then ' ' else key[0]] + Underscores(key[1..])
  }

  /** `parts.join(sep)`. */
  function Join(parts: seq<string>, sep: string): string
    decreases |parts|
  {
    if |parts| == 0 then ""
    else if |parts| == 1 then parts[0]
    else parts[0] + sep + Join(parts[1..], sep)
  }

  /** Joining reads left to right: one more part adds a separator and the part. */
  lemma {:induction false} JoinSnoc(parts: seq<string>, p: string, sep: string)
    requires parts != []
    ensures Join(parts + [p], sep) == Join(parts, sep) + sep + p
    decreases |parts|
  {
    if |parts| == 1 {
      assert (parts + [p])[1..] == [p];
    } else {
      assert (parts + [p])[1..] == parts[1..] + [p];
      JoinSnoc(parts[1..], p, sep);
    }
  }

  /** Joined parts that are all non-empty are empty only when there are none. */
  lemma JoinEmpty(parts: seq<string>, sep: string)
    requires forall i | 0 <= i < |parts| :: parts[i] != ""
    ensures Join(parts, sep) == "" <==> parts == []
  {
    if |parts| >= 2 {
      assert |Join(parts, sep)| >= |parts[0]|;
    }
  }

  /** One entry as the map step renders it; "" for the described change and
      for an empty text or list. */
  function Render(key: string, v: Value): (r: string)
    ensures r != "" <==> key != DescribedChangeKey && (if v.Str? then v.text != "" else v.items != [])
    ensures r != "" ==> StartsWith(r, Underscores(key) + ": ")
  {
    if key == DescribedChangeKey then ""
    else match v
      case List(items) => if |items| > 0 then Underscores(key) + ": " + Join(items, ", ") else ""
      case Str(t) => if t != "" then Underscores(key) + ": " + t else ""
  }

  /** `.map(render).filter(Boolean)`. */
  function RenderedParts(c: Customizations): (parts: seq<string>)
    ensures forall i | 0 <= i < |parts| :: parts[i] != ""
    ensures |parts| <= |c|
  {
    if c == [] then []
    else
      var r := Render(c[0].0, c[0].1);
      (if r == "" then [] else [r]) + RenderedParts(c[1..])
  }

  /** The rendered entries, joined with ". ". */
  function KeyValueText(c: Customizations): string {
    Join(RenderedParts(c), ". ")
  }

  /** Every entry that renders to something is kept, and nothing else; the
      order is stated by `RenderedPartsAppend`. */
  lemma RenderedPartsExact(c: Customizations)
    ensures RenderedParts(c) == [] <==> forall i | 0 <= i < |c| :: Render(c[i].0, c[i].1) == ""
    ensures forall p | p in RenderedParts(c) :: exists i | 0 <= i < |c| :: p == Render(c[i].0, c[i].1)
    ensures forall i | 0 <= i < |c| && Render(c[i].0, c[i].1) != "" :: Render(c[i].0, c[i].1) in RenderedParts(c)
  {
    RenderedPartsNone(c);
    RenderedPartsFrom(c);
    RenderedPartsKept(c);
  }

  lemma {:induction false} RenderedPartsNone(c: Customizations)
    ensures RenderedParts(c) == [] <==> forall i | 0 <= i < |c| :: Render(c[i].0, c[i].1) == ""
  {
    if c != [] {
      RenderedPartsNone(c[1..]);
      if forall i | 0 <= i < |c| :: Render(c[i].0, c[i].1) == "" {
        forall i | 0 <= i < |c[1..]| ensures Render(c[1..][i].0, c[1..][i].1) == "" {
          assert c[1..][i] == c[i + 1];
        }
      }
      if RenderedParts(c) == [] {
        forall i | 0 <= i < |c| ensures Render(c[i].0, c[i].1) == "" {
          if i > 0 {
            assert c[1..][i - 1] == c[i];
          }
        }
      }
    }
  }

  lemma {:induction false} RenderedPartsFrom(c: Customizations)
    ensures forall p | p in RenderedParts(c) :: exists i | 0 <= i < |c| :: p == Render(c[i].0, c[i].1)
  {
    if c != [] {
      RenderedPartsFrom(c[1..]);
      var rest := RenderedParts(c[1..]);
      forall p | p in RenderedParts(c) ensures exists i | 0 <= i < |c| :: p == Render(c[i].0, c[i].1) {
        if p in rest {
          var i :| 0 <= i < |c[1..]| && p == Render(c[1..][i].0, c[1..][i].1);
          assert c[1..][i] == c[i + 1];
        } else {
          assert p == Render(c[0].0, c[0].1);
        }
      }
    }
  }

  lemma {:induction false} RenderedPartsKept(c: Customizations)
    ensures forall i | 0 <= i < |c| && Render(c[i].0, c[i].1) != "" :: Render(c[i].0, c[i].1) in RenderedParts(c)
  {
    if c != [] {
      RenderedPartsKept(c[1..]);
      forall i | 0 <= i < |c| && Render(c[i].0, c[i].1) != "" ensures Render(c[i].0, c[i].1) in RenderedParts(c) {
        if i > 0 {
          assert c[1..][i - 1] == c[i];
        }
      }
    }
  }

  /** The parts keep the order of the entries: the parts of two runs of
      entries are the parts of the first, then those of the second. */
  lemma {:induction false} RenderedPartsAppend(a: Customizations, b: Customizations)
    ensures RenderedParts(a + b) == RenderedParts(a) + RenderedParts(b)
    decreases |a|
  {
    if a == [] {
      assert a + b == b;
    } else {
      RenderedPartsStep(a, b);
      RenderedPartsAppend(a[1..], b);
      RenderedPartsStep(a, []);
      assert a + [] == a && a[1..] + [] == a[1..];
      PartsAssoc(RenderedParts([a[0]]), RenderedParts(a[1..]), RenderedParts(b));
    }
  }

  /** The first entry contributes its part ahead of the rest. */
  lemma RenderedPartsStep(a: Customizations, b: Customizations)
    requires a != []
    ensures RenderedParts(a + b) == RenderedParts([a[0]]) + RenderedParts(a[1..] + b)
  {
    assert (a + b)[0] == a[0];
    assert (a + b)[1..] == a[1..] + b;
    assert [a[0]][1..] == [];
    var r := Render(a[0].0, a[0].1);
    assert RenderedParts([a[0]]) == (if r == "" then [] else [r]) + [];
  }

  lemma PartsAssoc(x: seq<string>, y: seq<string>, z: seq<string>)
    ensures x + (y + z) == (x + y) + z
  {
  }

  /** The key/value text is empty exactly when no entry renders to anything. */
  lemma KeyValueTextEmpty(c: Customizations)
    ensures KeyValueText(c) == "" <==> forall i | 0 <= i < |c| :: Render(c[i].0, c[i].1) == ""
  {
    RenderedPartsExact(c);
    JoinEmpty(RenderedParts(c), ". ");
  }

  /** The described change never reaches the key/value text, whatever its value. */
  lemma {:induction false} DescribedChangeNotRendered(c: Customizations, v: Value)
    ensures RenderedParts(Put(c, DescribedChangeKey, v)) == RenderedParts(c)
    ensures KeyValueText(Put(c, DescribedChangeKey, v)) == KeyValueText(c)
  {
    if c == [] {
      assert Put(c, DescribedChangeKey, v)[1..] == [];
    } else if c[0].0 == DescribedChangeKey {
      assert Put(c, DescribedChangeKey, v)[1..] == c[1..];
    } else {
      DescribedChangeNotRendered(c[1..], v);
      assert Put(c, DescribedChangeKey, v)[1..] == Put(c[1..], DescribedChangeKey, v);
    }
  }

  // ---------------------------------------------------------------------------
  // The described change and the whole customization text

  /** `(customizations.described_change as string || '').trim()`: a missing or
      empty change is "", a list has no `trim` and fails. */
  function DescribedChange(c: Customizations): (r: Result<string, Failure>)
    ensures r.Err? <==> Lookup(c, DescribedChangeKey).Some? && Lookup(c, DescribedChangeKey).value.List?
    ensures r.Ok? ==> Trimmed(r.value)
  {
    match Lookup(c, DescribedChangeKey)
    case None => Ok("")
    case Some(Str(t)) => TrimSpec(t); Ok(Trim(t))
    case Some(List(_)) => Err(TrimOfList)
  }

  /** The customization text of App.tsx:287-303. */
  function CustomizationsText(c: Customizations): Result<string, Failure> {
    match DescribedChange(c)
    case Err(e) => Err(e)
    case Ok(d) => Ok(KeyValueText(c) + if d != "" then ". Additional modifications: " + d + "." else "")
  }

  /** The paragraph that carries the customizations into the prompt; nothing
      when there is no customization text. */
  function Block(text: string): (b: string)
    ensures b == "" <==> text == ""
    ensures text != "" ==> EndsWith(b, text)
  {
    if text != "" then "\n\nPlease apply the following customizations: " + text else ""
  }

  /** The customization text is empty exactly when no entry renders and the
      described change is missing or blank. */
  lemma CustomizationsTextEmpty(c: Customizations)
    ensures CustomizationsText(c) == Ok("")
        <==> DescribedChange(c) == Ok("") && forall i | 0 <= i < |c| :: Render(c[i].0, c[i].1) == ""
  {
    KeyValueTextEmpty(c);
  }

  /** With nothing else to render, a described change still opens with the
      ". " separator. */
  lemma OnlyDescribedChange(c: Customizations, d: string)
    requires forall i | 0 <= i < |c| :: Render(c[i].0, c[i].1) == ""
    requires DescribedChange(c) == Ok(d) && d != ""
    ensures CustomizationsText(c) == Ok(". Additional modifications: " + d + ".")
  {
    KeyValueTextEmpty(c);
    var m := ". Additional modifications: " + d + ".";
    assert KeyValueText(c) + m == m;
  }

  /** After a successful regeneration the described change is set to "": the
      next customization text is the key/value text alone. */
  lemma ResetDescribedChange(c: Customizations)
    ensures DescribedChange(Put(c, DescribedChangeKey, Str(""))) == Ok("")
    ensures CustomizationsText(Put(c, DescribedChangeKey, Str(""))) == Ok(KeyValueText(c))
  {
    var c' := Put(c, DescribedChangeKey, Str(""));
    assert Lookup(c', DescribedChangeKey) == Some(Str(""));
    assert Trim("") == "" by {
      assert TrimStart("") == "";
    }
    assert DescribedChange(c') == Ok("");
    DescribedChangeNotRendered(c, Str(""));
    assert KeyValueText(c') + "" == KeyValueText(c);
  }

  /** After selecting an area the customizations are empty, and so is their text. */
  lemma NoCustomizationsNoText()
    ensures CustomizationsText([]) == Ok("") && Block("") == ""
  {
    assert KeyValueText([]) + "" == "";
  }
}
