/**
 * The slug transform of the admin editors (`generateSlug` in the project and note
 * editors, `generateName` in the category editor; the three are the same chain):
 *
 *   lowercase; drop every character outside [a-z0-9\s-]; turn each run of white
 *   space into '-'; turn each run of '-' into a single '-'; trim.
 */
module Slug {
  import opened Text

  /** `toLowerCase()` on one character, for the ASCII letters. */
  function AsciiLower(c: char): char {
    if 'A' <= c <= 'Z' then (c as int + 32) as char else c
  }

  function ToLowerCase(s: string): (r: string)
    ensures |r| == |s|
    ensures forall i :: 0 <= i < |s| ==> r[i] == AsciiLower(s[i])
  {
    if s == [] then [] else [AsciiLower(s[0])] + ToLowerCase(s[1..])
  }

  /** The class `[a-z0-9\s-]`. */
  predicate IsKept(c: char) {
    'a' <= c <= 'z' || '0' <= c <= '9' || IsJsWhitespace(c) || c == '-'
  }

  /** `.replace(/[^a-z0-9\s-]/g, '')` */
  function RemoveDisallowed(s: string): (r: string)
    ensures |r| <= |s|
  {
    if s == [] then []
    else if IsKept(s[0]) then [s[0]] + RemoveDisallowed(s[1..])
    else RemoveDisallowed(s[1..])
  }

  predicate IsHyphen(c: char) {
    c == '-'
  }

  /**
   * `.replace(/X+/g, '-')` for the character class X given by `inRun`, read left to
   * right: `afterRun` says the previous character was in a run already replaced.
   */
  function CollapseRuns(s: string, inRun: char -> bool, afterRun: bool): (r: string)
    ensures r == [] ==> s == [] || afterRun
    ensures s != [] && !inRun(s[0]) ==> r != [] && r[0] == s[0]
    ensures afterRun && r != [] ==> !inRun(r[0])
  {
    if s == [] then []
    else if !inRun(s[0]) then [s[0]] + CollapseRuns(s[1..], inRun, false)
    else if afterRun then CollapseRuns(s[1..], inRun, true)
    else "-" + CollapseRuns(s[1..], inRun, true)
  }

  /** Each maximal run of the class becomes a single '-'. */
  function ReplaceRuns(s: string, inRun: char -> bool): string {
    CollapseRuns(s, inRun, false)
  }

  /** `generateSlug(title)` / `generateName(label)` */
  function Slugify(title: string): string {
    Trim(ReplaceRuns(ReplaceRuns(RemoveDisallowed(ToLowerCase(title)), IsJsWhitespace), IsHyphen))
  }

  predicate IsSlugChar(c: char) {
    'a' <= c <= 'z' || '0' <= c <= '9' || c == '-'
  }

  predicate NoDoubleHyphen(s: string) {
    forall i :: 0 <= i < |s| - 1 ==> !(s[i] == '-' && s[i + 1] == '-')
  }

  /** What the transform produces: only [a-z0-9-], never "--". */
  predicate IsSlug(s: string) {
    (forall c :: c in s ==> IsSlugChar(c)) && NoDoubleHyphen(s)
  }

  /** Only characters of `[a-z0-9\s-]` survive, and each of them comes from `s`. */
  lemma {:induction false} RemoveDisallowedAlphabet(s: string)
    ensures forall c :: c in RemoveDisallowed(s) ==> c in s && IsKept(c)
  {
    if s != [] {
      RemoveDisallowedAlphabet(s[1..]);
      assert forall c :: c in s[1..] ==> c in s;
    }
  }

  /** No character of the class is left: each is '-' or an untouched character of `s`. */
  lemma {:induction false} CollapseRunsAlphabet(s: string, inRun: char -> bool, afterRun: bool)
    ensures forall c :: c in CollapseRuns(s, inRun, afterRun) ==> c == '-' || (c in s && !inRun(c))
  {
    if s != [] {
      CollapseRunsAlphabet(s[1..], inRun, true);
      CollapseRunsAlphabet(s[1..], inRun, false);
      assert forall c :: c in s[1..] ==> c in s;
    }
  }

  /** Collapsing hyphen runs leaves no two hyphens side by side. */
  lemma {:induction false} CollapsedHasNoDoubleHyphen(s: string, afterRun: bool)
    ensures NoDoubleHyphen(CollapseRuns(s, IsHyphen, afterRun))
  {
    if s != [] {
      CollapsedHasNoDoubleHyphen(s[1..], true);
      CollapsedHasNoDoubleHyphen(s[1..], false);
    }
  }

  /** The final `trim()` never changes anything: no white space is left by then. */
  lemma TrimIsNoOp(title: string)
    ensures Slugify(title)
         == ReplaceRuns(ReplaceRuns(RemoveDisallowed(ToLowerCase(title)), IsJsWhitespace), IsHyphen)
  {
    var k := RemoveDisallowed(ToLowerCase(title));
    var a := ReplaceRuns(k, IsJsWhitespace);
    var b := ReplaceRuns(a, IsHyphen);
    CollapseRunsAlphabet(k, IsJsWhitespace, false);
    CollapseRunsAlphabet(a, IsHyphen, false);
    assert NoWhitespace(b) by {
      forall i | 0 <= i < |b| ensures !IsJsWhitespace(b[i]) {
        assert b[i] in b;
      }
    }
    TrimOfNoWhitespace(b);
  }

  /** The output is a slug: characters in [a-z0-9-] only, and no two consecutive hyphens. */
  lemma SlugifyIsSlug(title: string)
    ensures IsSlug(Slugify(title))
  {
    var k := RemoveDisallowed(ToLowerCase(title));
    var a := ReplaceRuns(k, IsJsWhitespace);
    TrimIsNoOp(title);
    RemoveDisallowedAlphabet(ToLowerCase(title));
    CollapseRunsAlphabet(k, IsJsWhitespace, false);
    CollapseRunsAlphabet(a, IsHyphen, false);
    assert forall c :: c in a ==> IsSlugChar(c);
    CollapsedHasNoDoubleHyphen(a, false);
  }

  lemma {:induction false} LowerOfSlug(s: string)
    requires IsSlug(s)
    ensures ToLowerCase(s) == s
  {
    forall i | 0 <= i < |s| ensures ToLowerCase(s)[i] == s[i] {
      assert s[i] in s;
    }
  }

  lemma {:induction false} RemoveDisallowedOfAppend(a: string, b: string)
    ensures RemoveDisallowed(a + b) == RemoveDisallowed(a) + RemoveDisallowed(b)
  {
    if a == [] {
      assert a + b == b;
    } else {
      var ab := a + b;
      assert ab[0] == a[0] && ab[1..] == a[1..] + b;
      RemoveDisallowedOfAppend(a[1..], b);
    }
  }

  lemma {:induction false} RemoveDisallowedOfKept(s: string)
    requires forall i :: 0 <= i < |s| ==> IsKept(s[i])
    ensures RemoveDisallowed(s) == s
  {
    if s != [] {
      RemoveDisallowedOfKept(s[1..]);
    }
  }

  /** With no character of the class present, replacing its runs changes nothing. */
  lemma {:induction false} ReplaceAbsentRuns(s: string, inRun: char -> bool, afterRun: bool)
    requires forall i :: 0 <= i < |s| ==> !inRun(s[i])
    ensures CollapseRuns(s, inRun, afterRun) == s
  {
    if s != [] {
      ReplaceAbsentRuns(s[1..], inRun, false);
    }
  }

  /** Hyphens that are already single stay as they are. */
  lemma {:induction false} CollapseSingleHyphens(s: string)
    requires NoDoubleHyphen(s)
    ensures ReplaceRuns(s, IsHyphen) == s
  {
    if s != [] {
      var t := s[1..];
      assert NoDoubleHyphen(t);
      CollapseSingleHyphens(t);
      assert s == [s[0]] + t;
      if !IsHyphen(s[0]) {
        assert ReplaceRuns(s, IsHyphen) == [s[0]] + ReplaceRuns(t, IsHyphen);
      } else if t == [] {
        assert ReplaceRuns(s, IsHyphen) == "-" + CollapseRuns(t, IsHyphen, true);
      } else {
        assert !IsHyphen(t[0]);
        assert CollapseRuns(t, IsHyphen, true) == [t[0]] + CollapseRuns(t[1..], IsHyphen, false)
                                               == CollapseRuns(t, IsHyphen, false);
      }
    }
  }

  /** A slug is left as it is by the transform. */
  lemma SlugifyOfSlug(s: string)
    requires IsSlug(s)
    ensures Slugify(s) == s
  {
    LowerOfSlug(s);
    forall i | 0 <= i < |s| ensures IsKept(s[i]) && !IsJsWhitespace(s[i]) {
      assert s[i] in s;
    }
    RemoveDisallowedOfKept(s);
    ReplaceAbsentRuns(s, IsJsWhitespace, false);
    CollapseSingleHyphens(s);
    TrimOfNoWhitespace(s);
  }

  /** `generateSlug(generateSlug(t)) == generateSlug(t)` */
  lemma SlugifyIdempotent(title: string)
    ensures Slugify(Slugify(title)) == Slugify(title)
  {
    SlugifyIsSlug(title);
    SlugifyOfSlug(Slugify(title));
  }

  predicate IsAlnum(c: char) {
    'a' <= c <= 'z' || '0' <= c <= '9'
  }

  /** The letters and digits of `s`, in order. */
  function Alnums(s: string): string {
    if s == [] then []
    else if IsAlnum(s[0]) then [s[0]] + Alnums(s[1..])
    else Alnums(s[1..])
  }

  lemma {:induction false} RemoveDisallowedKeepsAlnums(s: string)
    ensures Alnums(RemoveDisallowed(s)) == Alnums(s)
  {
    if s != [] {
      RemoveDisallowedKeepsAlnums(s[1..]);
      if IsKept(s[0]) {
        var r := [s[0]] + RemoveDisallowed(s[1..]);
        assert r[0] == s[0] && r[1..] == RemoveDisallowed(s[1..]);
      }
    }
  }

  lemma {:induction false} CollapseRunsKeepsAlnums(s: string, inRun: char -> bool, afterRun: bool)
    requires forall c :: inRun(c) ==> !IsAlnum(c)
    ensures Alnums(CollapseRuns(s, inRun, afterRun)) == Alnums(s)
  {
    if s != [] {
      var t := s[1..];
      if !inRun(s[0]) {
        CollapseRunsKeepsAlnums(t, inRun, false);
        var r := [s[0]] + CollapseRuns(t, inRun, false);
        assert r[0] == s[0] && r[1..] == CollapseRuns(t, inRun, false);
      } else if afterRun {
        CollapseRunsKeepsAlnums(t, inRun, true);
      } else {
        CollapseRunsKeepsAlnums(t, inRun, true);
        var r := "-" + CollapseRuns(t, inRun, true);
        assert r[0] == '-' && r[1..] == CollapseRuns(t, inRun, true);
      }
    }
  }

  /** Every lower-case letter and digit of the lowercased title survives, in order; only separators change. */
  lemma SlugifyKeepsLettersAndDigits(title: string)
    ensures Alnums(Slugify(title)) == Alnums(ToLowerCase(title))
  {
    var k := RemoveDisallowed(ToLowerCase(title));
    RemoveDisallowedKeepsAlnums(ToLowerCase(title));
    CollapseRunsKeepsAlnums(k, IsJsWhitespace, false);
    CollapseRunsKeepsAlnums(ReplaceRuns(k, IsJsWhitespace), IsHyphen, false);
    TrimIsNoOp(title);
  }

  /** Whether a run is open after reading `a`, starting from `afterRun`. */
  function EndsInRun(a: string, inRun: char -> bool, afterRun: bool): bool {
    if a == [] then afterRun else inRun(a[|a| - 1])
  }

  /** `CollapseRuns` reads its input left to right, so it can be split anywhere. */
  lemma {:induction false} CollapseRunsAppend(a: string, b: string, inRun: char -> bool, afterRun: bool)
    ensures CollapseRuns(a + b, inRun, afterRun)
         == CollapseRuns(a, inRun, afterRun) + CollapseRuns(b, inRun, EndsInRun(a, inRun, afterRun))
  {
    if a == [] {
      assert a + b == b;
    } else {
      var t := a[1..];
      var ab := a + b;
      assert ab[0] == a[0] && ab[1..] == t + b;
      CollapseRunsAppend(t, b, inRun, inRun(a[0]));
      if t != [] {
        assert t[|t| - 1] == a[|a| - 1];
      }
    }
  }

  /** A leading word of `n` characters outside the class is copied as it is. */
  lemma WordThenRest(s: string, n: nat, inRun: char -> bool, afterRun: bool)
    requires 0 < n <= |s|
    requires forall i :: 0 <= i < n ==> !inRun(s[i])
    ensures CollapseRuns(s, inRun, afterRun) == s[..n] + CollapseRuns(s[n..], inRun, false)
  {
    assert s == s[..n] + s[n..];
    CollapseRunsAppend(s[..n], s[n..], inRun, afterRun);
    ReplaceAbsentRuns(s[..n], inRun, afterRun);
  }

  /** A run of one character becomes '-'. */
  lemma SeparatorThenRest(s: string, inRun: char -> bool)
    requires s != [] && inRun(s[0]) && (|s| == 1 || !inRun(s[1]))
    ensures CollapseRuns(s, inRun, false) == "-" + CollapseRuns(s[1..], inRun, false)
  {
    var t := s[1..];
    if t != [] {
      assert CollapseRuns(t, inRun, true) == [t[0]] + CollapseRuns(t[1..], inRun, false)
                                          == CollapseRuns(t, inRun, false);
    }
  }

  /** A one-character run followed by a word: '-' and the word. */
  lemma SeparatorThenWord(w: char, a: string, rest: string, inRun: char -> bool)
    requires inRun(w) && a != [] && forall i :: 0 <= i < |a| ==> !inRun(a[i])
    ensures CollapseRuns([w] + a + rest, inRun, false) == "-" + a + CollapseRuns(rest, inRun, false)
  {
    var s := [w] + a + rest;
    assert s[1..] == a + rest;
    SeparatorThenRest(s, inRun);
    assert (a + rest)[..|a|] == a && (a + rest)[|a|..] == rest;
    WordThenRest(a + rest, |a|, inRun, false);
  }

  /** A word outside the class is copied as it is. */
  lemma WordFirst(a: string, rest: string, inRun: char -> bool)
    requires a != [] && forall i :: 0 <= i < |a| ==> !inRun(a[i])
    ensures CollapseRuns(a + rest, inRun, false) == a + CollapseRuns(rest, inRun, false)
  {
    assert (a + rest)[..|a|] == a && (a + rest)[|a|..] == rest;
    WordThenRest(a + rest, |a|, inRun, false);
  }

  lemma TwoSeparatedWords(b: string, c: string, w: char, inRun: char -> bool)
    requires inRun(w) && b != [] && c != []
    requires forall i :: 0 <= i < |b| ==> !inRun(b[i])
    requires forall i :: 0 <= i < |c| ==> !inRun(c[i])
    ensures CollapseRuns([w] + b + ([w] + c), inRun, false) == "-" + b + ("-" + c)
  {
    SeparatorThenWord(w, b, [w] + c, inRun);
    assert [w] + c == [w] + c + [];
    SeparatorThenWord(w, c, [], inRun);
  }

  /** Three words separated by single characters of the class. */
  lemma ThreeWords(a: string, b: string, c: string, w: char, inRun: char -> bool)
    requires inRun(w) && a != [] && b != [] && c != []
    requires forall i :: 0 <= i < |a| ==> !inRun(a[i])
    requires forall i :: 0 <= i < |b| ==> !inRun(b[i])
    requires forall i :: 0 <= i < |c| ==> !inRun(c[i])
    ensures CollapseRuns(a + ([w] + b + ([w] + c)), inRun, false) == a + ("-" + b + ("-" + c))
  {
    TwoSeparatedWords(b, c, w, inRun);
    WordFirst(a, [w] + b + ([w] + c), inRun);
  }

  lemma DashesOfMyCoolProject(kept: string)
    requires kept == "my cool project"
    ensures ReplaceRuns(kept, IsJsWhitespace) == "my-cool-project"
  {
    assert kept == "my" + ([' '] + "cool" + ([' '] + "project"));
    ThreeWords("my", "cool", "project", ' ', IsJsWhitespace);
  }

  lemma KeptOfMyCoolProject(lower: string)
    requires lower == "my cool project!"
    ensures RemoveDisallowed(lower) == "my cool project"
  {
    var k := lower[..15];
    assert lower == k + lower[15..];
    RemoveDisallowedOfAppend(k, lower[15..]);
    RemoveDisallowedOfKept(k);
    assert RemoveDisallowed(lower[15..]) == [];
  }

  lemma DashesOfMyTitle(lower: string)
    requires lower == " my title "
    ensures ReplaceRuns(lower, IsJsWhitespace) == "-my-title-"
  {
    assert lower == [' '] + "my" + ([' '] + "title" + [' ']);
    SeparatorThenWord(' ', "my", [' '] + "title" + [' '], IsJsWhitespace);
    SeparatorThenWord(' ', "title", [' '], IsJsWhitespace);
    assert CollapseRuns([' '], IsJsWhitespace, false) == "-";
  }

  lemma LowerOfMyCoolProject(title: string)
    requires title == "My Cool Project!"
    ensures ToLowerCase(title) == "my cool project!"
  {
  }

  lemma LowerOfMyTitle(title: string)
    requires title == " My Title "
    ensures ToLowerCase(title) == " my title "
  {
  }

  /** A finished slug goes through the last two stages unchanged. */
  lemma LastStagesOfSlug(s: string)
    requires IsSlug(s)
    ensures Trim(ReplaceRuns(s, IsHyphen)) == s
  {
    CollapseSingleHyphens(s);
    forall i | 0 <= i < |s| ensures !IsJsWhitespace(s[i]) {
      assert s[i] in s;
    }
    TrimOfNoWhitespace(s);
  }

  /** "My Cool Project!" gives "my-cool-project". */
  lemma SlugOfMyCoolProject(title: string)
    requires title == "My Cool Project!"
    ensures Slugify(title) == "my-cool-project"
  {
    LowerOfMyCoolProject(title);
    KeptOfMyCoolProject(ToLowerCase(title));
    DashesOfMyCoolProject(RemoveDisallowed(ToLowerCase(title)));
    LastStagesOfSlug("my-cool-project");
  }

  /** Surrounding white space is not trimmed away: it has become '-' before `trim()` runs. */
  lemma SlugKeepsOuterHyphens(title: string)
    requires title == " My Title "
    ensures Slugify(title) == "-my-title-"
  {
    LowerOfMyTitle(title);
    RemoveDisallowedOfKept(ToLowerCase(title));
    DashesOfMyTitle(ToLowerCase(title));
    LastStagesOfSlug("-my-title-");
  }
}
