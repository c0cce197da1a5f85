/**
 * The two callbacks the bindings generator gives bindgen: renaming enum variants
 * (strip the enum's own name, lowercase the type tags after numbers) and hiding the
 * `...Max` sentinel variants. Pascal-casing is a library conversion and is taken
 * as a parameter.
 */
module RenameEnums {
  import opened Common

  predicate IsDigit(c: char)
  {
    '0' <= c <= '9'
  }

  /** `to_ascii_lowercase` of one character. */
  function AsciiLower(c: char): (l: char)
    ensures 'A' <= c <= 'Z' ==> l as int == c as int + 32
    ensures !('A' <= c <= 'Z') ==> l == c
  {
    if 'A' <= c <= 'Z' then (c as int + 32) as char else c
  }

  /** `to_ascii_lowercase` of a string. */
  function AsciiLowercase(s: string): (l: string)
    ensures |l| == |s| && forall i :: 0 <= i < |s| ==> l[i] == AsciiLower(s[i])
  {
    seq(|s|, i requires 0 <= i < |s| => AsciiLower(s[i]))
  }

  // ----- The pattern `\d+(?:F|I|UI|U)`, replaced by its lowercase form -----

  /** The length of the run of digits that `s` starts with. */
  function DigitRun(s: string): (n: nat)
    ensures n <= |s|
    ensures forall i :: 0 <= i < n ==> IsDigit(s[i])
    ensures n < |s| ==> !IsDigit(s[n])
  {
    if |s| == 0 || !IsDigit(s[0]) then 0 else 1 + DigitRun(s[1..])
  }

  /** A type-tag letter: the alternatives `F`, `I` and `U` (with `UI` starting with `U`). */
  predicate IsTag(c: char)
  {
    c == 'F' || c == 'I' || c == 'U'
  }

  /**
   * Where a scan that meets the digit run `s` starts with resumes: after `UI`, or else
   * after one of `F`, `I`, `U`, when one follows the run (a match), or right after the
   * run (no match, and neither is any shorter run inside it).
   */
  function Resume(s: string): (m: nat)
    requires |s| > 0 && IsDigit(s[0])
    ensures DigitRun(s) <= m <= |s|
  {
    var n := DigitRun(s);
    if |s| >= n + 2 && s[n] == 'U' && s[n + 1] == 'I' then n + 2
    else if |s| >= n + 1 && IsTag(s[n]) then n + 1
    else n
  }

  /** The tag letters of the match after the leading digit run, lowercased; empty when there is no match. */
  function LoweredTag(s: string): (t: string)
    requires |s| > 0 && IsDigit(s[0])
    ensures |t| == Resume(s) - DigitRun(s)
    ensures forall j :: 0 <= j < |t| ==> t[j] == AsciiLower(s[DigitRun(s) + j])
  {
    var n := DigitRun(s);
    if Resume(s) == n + 2 then "ui"
    else if Resume(s) == n + 1 then [AsciiLower(s[n])]
    else []
  }

  /**
   * `replace_all` with the lowercasing closure, as a left-to-right scan: a character
   * that is not a digit is kept; a digit run is kept, its match (if any) lowercased,
   * and the scan resumes after the match.
   */
  function LowerTags(s: string): (r: string)
    ensures |r| == |s|
    decreases |s|
  {
    if |s| == 0 then []
    else if !IsDigit(s[0]) then [s[0]] + LowerTags(s[1..])
    else s[..DigitRun(s)] + LoweredTag(s) + LowerTags(s[Resume(s)..])
  }

  /**
   * Position `i` of `s` lies inside a match of the pattern and is a letter: a tag
   * letter right after a digit, or the `I` of `UI` right after a digit.
   */
  predicate Tagged(s: string, i: int)
    requires 0 <= i < |s|
  {
    || (IsTag(s[i]) && i >= 1 && IsDigit(s[i - 1]))
    || (s[i] == 'I' && i >= 2 && s[i - 1] == 'U' && IsDigit(s[i - 2]))
  }

  /** The lowercased-tag property of the scan's result `r` on the positions from `m` on. */
  predicate LowersTagsFrom(s: string, r: string, m: nat)
    requires |r| == |s|
  {
    forall i :: m <= i < |s| ==> r[i] == if Tagged(s, i) then AsciiLower(s[i]) else s[i]
  }

  /**
   * Tagging looks back at most two characters, so from two places past a cut on, a
   * suffix tags what the whole string tags.
   */
  lemma TaggedShift(s: string, m: nat)
    requires m <= |s|
    ensures forall i :: m + 2 <= i < |s| ==> Tagged(s, i) == Tagged(s[m..], i - m)
  {
  }

  /**
   * Where the scan resumes at `m` and the two positions after the cut are tagged as in
   * the suffix, the property of the suffix's scan carries over to the whole string.
   */
  lemma SuffixLowersTags(s: string, r: string, m: nat)
    requires m <= |s| == |r| && r[m..] == LowerTags(s[m..])
    requires LowersTagsFrom(s[m..], LowerTags(s[m..]), 0)
    requires m < |s| ==> Tagged(s, m) == Tagged(s[m..], 0)
    requires m + 1 < |s| ==> Tagged(s, m + 1) == Tagged(s[m..], 1)
    ensures LowersTagsFrom(s, r, m)
  {
    TaggedShift(s, m);
    forall i | m <= i < |s|
      ensures r[i] == if Tagged(s, i) then AsciiLower(s[i]) else s[i]
    {
      assert r[i] == r[m..][i - m] && s[i] == s[m..][i - m];
    }
  }

  /** One step of the scan over a character that starts no match. */
  lemma NonDigitStep(s: string)
    requires |s| > 0 && !IsDigit(s[0])
    requires LowersTagsFrom(s[1..], LowerTags(s[1..]), 0)
    ensures LowersTagsFrom(s, LowerTags(s), 0)
  {
    var r := LowerTags(s);
    assert r[1..] == LowerTags(s[1..]);
    SuffixLowersTags(s, r, 1);
  }

  /** The scan over a leading digit run: the run, its lowercased match, then the rest. */
  lemma DigitUnfold(s: string)
    requires |s| > 0 && IsDigit(s[0])
    ensures LowerTags(s) == s[..DigitRun(s)] + LoweredTag(s) + LowerTags(s[Resume(s)..])
  {
  }

  /** The three parts of a three-part concatenation. */
  lemma ThreeParts(r: string, a: string, b: string, c: string)
    requires r == a + b + c
    ensures r[..|a|] == a && r[|a| + |b|..] == c
    ensures forall i :: |a| <= i < |a| + |b| ==> r[i] == b[i - |a|]
  {
  }

  /** The scan keeps the digit run and continues on the suffix where it resumes. */
  lemma DigitScan(s: string)
    requires |s| > 0 && IsDigit(s[0])
    ensures LowerTags(s)[..DigitRun(s)] == s[..DigitRun(s)]
    ensures LowerTags(s)[Resume(s)..] == LowerTags(s[Resume(s)..])
  {
    DigitUnfold(s);
    ThreeParts(LowerTags(s), s[..DigitRun(s)], LoweredTag(s), LowerTags(s[Resume(s)..]));
  }

  /** Where the scan resumes, the two next positions are tagged as in the suffix. */
  lemma ResumeBoundary(s: string)
    requires |s| > 0 && IsDigit(s[0])
    ensures var m := Resume(s);
      && (m < |s| ==> Tagged(s, m) == Tagged(s[m..], 0))
      && (m + 1 < |s| ==> Tagged(s, m + 1) == Tagged(s[m..], 1))
  {
  }

  /** The letters of a match are tagged. */
  lemma MatchTagged(s: string)
    requires |s| > 0 && IsDigit(s[0])
    ensures forall i :: DigitRun(s) <= i < Resume(s) ==> Tagged(s, i)
  {
    assert IsDigit(s[DigitRun(s) - 1]);
  }

  /** The positions a match covers are lowercased, since they are the tagged letters. */
  lemma MatchLowered(s: string)
    requires |s| > 0 && IsDigit(s[0])
    ensures forall i :: DigitRun(s) <= i < Resume(s) ==>
      Tagged(s, i) && LowerTags(s)[i] == AsciiLower(s[i])
  {
    MatchTagged(s);
    DigitUnfold(s);
    ThreeParts(LowerTags(s), s[..DigitRun(s)], LoweredTag(s), LowerTags(s[Resume(s)..]));
  }

  /** One step of the scan over a digit run and the match it may start. */
  lemma DigitStep(s: string)
    requires |s| > 0 && IsDigit(s[0])
    requires LowersTagsFrom(s[Resume(s)..], LowerTags(s[Resume(s)..]), 0)
    ensures LowersTagsFrom(s, LowerTags(s), 0)
  {
    var r := LowerTags(s);
    var n := DigitRun(s);
    var m := Resume(s);
    DigitScan(s);
    ResumeBoundary(s);
    SuffixLowersTags(s, r, m);
    MatchLowered(s);
    assert LowersTagsFrom(s, r, n);
    DigitsKept(s, r, n);
  }

  /**
   * The scan changes exactly the tagged letters, each to its lowercase form, and
   * keeps every other character.
   */
  lemma {:induction false} LowerTagsPointwise(s: string)
    ensures forall i :: 0 <= i < |s| ==>
      LowerTags(s)[i] == if Tagged(s, i) then AsciiLower(s[i]) else s[i]
    decreases |s|
  {
    if |s| == 0 {
      return;
    }
    if !IsDigit(s[0]) {
      LowerTagsPointwise(s[1..]);
      NonDigitStep(s);
    } else {
      LowerTagsPointwise(s[Resume(s)..]);
      DigitStep(s);
    }
  }

  /** The digits of the leading run are kept: none of them is tagged. */
  lemma DigitsKept(s: string, r: string, n: nat)
    requires n <= |s| == |r| && r[..n] == s[..n]
    requires forall i :: 0 <= i < n ==> IsDigit(s[i])
    requires LowersTagsFrom(s, r, n)
    ensures LowersTagsFrom(s, r, 0)
  {
    forall i | 0 <= i < n
      ensures r[i] == s[i] && !Tagged(s, i)
    {
      assert r[i] == r[..n][i];
    }
  }

  // ----- The callbacks -----

  /** bindgen's `EnumVariantCustomBehavior`. */
  datatype EnumVariantCustomBehavior = ModuleConstify | Constify | Hide

  /**
   * `enum_variant_name`: the Pascal-cased variant name with the Pascal-cased enum name
   * stripped from its front and its type tags lowercased. No renaming without an enum
   * name, when the prefix is absent, or when the remainder is empty or starts with a
   * digit (it would not be an identifier).
   */
  function EnumVariantName(enumName: Option<string>, original: string, pascal: string -> string): (r: Option<string>)
    ensures r.Some? <==>
      && enumName.Some?
      && pascal(enumName.value) <= pascal(original)
      && |pascal(enumName.value)| < |pascal(original)|
      && !IsDigit(pascal(original)[|pascal(enumName.value)|])
    ensures r.Some? ==> |r.value| == |pascal(original)| - |pascal(enumName.value)|
  {
    if enumName.None? then None
    else
      var converted := pascal(enumName.value);
      var variant := pascal(original);
      if converted <= variant then
        var val := variant[|converted|..];
        if |val| == 0 || IsDigit(val[0]) then None
        else Some(LowerTags(val))
      else None
  }

  /**
   * A renamed variant is the remainder after the enum's prefix, letter for letter,
   * except that each tagged letter of the remainder is lowercased.
   */
  lemma EnumVariantNameContents(enumName: Option<string>, original: string, pascal: string -> string)
    requires EnumVariantName(enumName, original, pascal).Some?
    ensures var val := pascal(original)[|pascal(enumName.value)|..];
      var name := EnumVariantName(enumName, original, pascal).value;
      && |name| == |val|
      && forall i :: 0 <= i < |val| ==> name[i] == if Tagged(val, i) then AsciiLower(val[i]) else val[i]
  {
    LowerTagsPointwise(pascal(original)[|pascal(enumName.value)|..]);
  }

  /** The name ends in `max` in any mix of cases. */
  predicate EndsWithMaxAnyCase(s: string)
  {
    |s| >= 3 && s[|s| - 3] in "mM" && s[|s| - 2] in "aA" && s[|s| - 1] in "xX"
  }

  /**
   * `enum_variant_behavior`: hide every variant whose name ends in `max` (ignoring ASCII
   * case), except `BuiltInMax`; leave every other variant alone.
   */
  function EnumVariantBehavior(original: string): (r: Option<EnumVariantCustomBehavior>)
    ensures r == Some(Hide) <==> EndsWithMaxAnyCase(original) && original != "BuiltInMax"
    ensures r != Some(Hide) ==> r == None
  {
    var lower := AsciiLowercase(original);
    if |lower| >= 3 && lower[|lower| - 3..] == "max" then
      if original == "BuiltInMax" then None else Some(Hide)
    else None
  }
}
