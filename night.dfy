/**
 * The night-mode edit of `handleToggleNightMode` (App.tsx:395-401): enabling
 * appends the night sentence after a space; disabling removes the first copy
 * of it (`String.prototype.replace` with a string pattern replaces one
 * occurrence only) and trims.
 */
module Night {
  import opened Text
  import opened Rules
  import opened Cleaner
  import opened CleanerProperties

  /** The first copy of `p` in `s` starts at `i`. */
  predicate FirstAt(s: string, p: string, i: nat) {
    && i + |p| <= |s| && s[i..i + |p|] == p
    && forall j | 0 <= j < i :: !StartsWith(s[j..], p)
  }

  /** A copy of `p` that a first copy at `j` follows would be an earlier one. */
  lemma NoCopyBefore(s: string, p: string, i: nat, j: nat)
    requires FirstAt(s, p, j) && i < j && i + |p| <= |s|
    ensures s[i..i + |p|] != p
  {
    assert s[i..][..|p|] == s[i..i + |p|];
  }

  /** There is at most one first copy. */
  lemma FirstAtUnique(s: string, p: string, i: nat, j: nat)
    requires FirstAt(s, p, i) && FirstAt(s, p, j)
    ensures i == j
  {
    if i < j {
      NoCopyBefore(s, p, i, j);
    } else if j < i {
      NoCopyBefore(s, p, j, i);
    }
  }

  /** `s.replace(p, '')` for a string `p`: the first copy of `p` is cut out. */
  function RemoveFirst(s: string, p: string): string
    decreases |s|
  {
    if StartsWith(s, p) then s[|p|..]
    else if s == [] then s
    else [s[0]] + RemoveFirst(s[1..], p)
  }

  /** Exactly the first copy is cut out; the text around it keeps its order. */
  lemma {:induction false} RemoveFirstAt(s: string, p: string, i: nat)
    requires FirstAt(s, p, i)
    ensures RemoveFirst(s, p) == s[..i] + s[i + |p|..]
    decreases i
  {
    if i == 0 {
      assert s[..|p|] == s[0..0 + |p|];
      assert s[..0] + s[|p|..] == s[|p|..];
    } else {
      assert !StartsWith(s[0..], p);
      assert s[0..] == s;
      var t := s[1..];
      assert t[i - 1..i - 1 + |p|] == s[i..i + |p|];
      forall j | 0 <= j < i - 1
        ensures !StartsWith(t[j..], p)
      {
        assert t[j..] == s[j + 1..];
      }
      RemoveFirstAt(t, p, i - 1);
      assert [s[0]] + (t[..i - 1] + t[i - 1 + |p|..]) == s[..i] + s[i + |p|..];
    }
  }

  /** Without a copy of `p` nothing changes. */
  lemma {:induction false} RemoveFirstAbsent(s: string, p: string)
    requires !Occurs(s, p)
    ensures RemoveFirst(s, p) == s
    decreases |s|
  {
    if s != [] {
      RemoveFirstAbsent(s[1..], p);
      assert [s[0]] + s[1..] == s;
    }
  }

  /** The prompt of a night-mode toggle, for a night sentence `night`. */
  function NightPrompt(night: string, prompt: string, enableNight: bool): string {
    if enableNight then prompt + " " + night else Trim(RemoveFirst(prompt, night))
  }

  /** The edit as the handler performs it, with the application's sentence. */
  method ToggleNightPrompt(prompt: string, enableNight: bool) returns (newPrompt: string)
    ensures newPrompt == NightPrompt(NightModeText, prompt, enableNight)
  {
    newPrompt := prompt;
    if enableNight {
      newPrompt := newPrompt + " " + NightModeText;
    } else {
      newPrompt := RemoveFirst(newPrompt, NightModeText);
      newPrompt := Trim(newPrompt);
    }
  }

  /** A sentence whose last character occurs nowhere else in it and is not
      whitespace, nor is its first character. */
  predicate Sentence(night: string) {
    && night != [] && !IsSpace(night[0]) && !IsSpace(night[|night| - 1])
    && night[|night| - 1] !in night[..|night| - 1]
  }

  /** In `p + " " + night` the first copy of `night` is the appended one when
      `p` has none: a copy that began earlier would end inside the appended
      text or on the space, where the sentence's last character is not. */
  lemma AppendedIsFirst(night: string, p: string)
    requires Sentence(night) && !Occurs(p, night)
    ensures FirstAt(p + " " + night, night, |p| + 1)
  {
    var s := p + " " + night;
    var n := |night|;
    assert s[|p| + 1..] == night;
    OccursIff(p, night);
    forall j | 0 <= j < |p| + 1
      ensures !StartsWith(s[j..], night)
    {
      if j + n <= |p| {
        assert s[j..][..n] == p[j..][..n];
        assert !StartsWith(p[j..], night);
      } else {
        var e := j + n - 1;
        if e == |p| {
          assert s[j..][n - 1] == ' ';
        } else {
          assert s[j..][n - 1] == night[e - |p| - 1];
          assert night[e - |p| - 1] in night[..n - 1];
        }
        assert s[j..][n - 1] != night[n - 1];
      }
    }
  }

  /** Disabling night mode right after enabling it gives the prompt back, for
      a trimmed prompt that does not already hold the sentence. */
  lemma {:induction false} EnableThenDisable(night: string, p: string)
    requires Sentence(night) && Trimmed(p) && !Occurs(p, night)
    ensures NightPrompt(night, NightPrompt(night, p, true), false) == p
  {
    var s := p + " " + night;
    AppendedIsFirst(night, p);
    RemoveFirstAt(s, night, |p| + 1);
    assert s[..|p| + 1] + s[|p| + 1 + |night|..] == p + " ";
    TrimAppendSpace(p, " ");
    TrimIdentity(p);
  }

  /** The application's night sentence is such a sentence. */
  lemma NightModeTextIsSentence()
    ensures Sentence(NightModeText)
  {
    NightModeTextFacts();
    NightModeTextEnding();
  }

  /** Enabling and then disabling night mode with the application's sentence
      gives the prompt back. */
  lemma ToggleRoundTrip(p: string)
    requires Trimmed(p) && !Occurs(p, NightModeText)
    ensures NightPrompt(NightModeText, NightPrompt(NightModeText, p, true), false) == p
  {
    NightModeTextIsSentence();
    EnableThenDisable(NightModeText, p);
  }

  /** Only one copy is removed: a prompt holding the sentence twice in a row
      keeps one. */
  lemma DisableRemovesOneCopy(night: string)
    requires night != []
    ensures RemoveFirst(night + night, night) == night
  {
    assert (night + night)[..|night|] == night;
  }

  /** Disabling a prompt without the sentence only trims it. */
  lemma DisableWithoutSentence(night: string, p: string)
    requires !Occurs(p, night)
    ensures NightPrompt(night, p, false) == Trim(p)
  {
    RemoveFirstAbsent(p, night);
  }
}
