/**
 * Project-name handling: the slug used for the folder and package name, the
 * human-readable display name, and the checks run on user input.
 */
module Validator {
  import opened Text
  import opened Types

  predicate IsAlnum(c: char) { IsLower(c) || IsDigit(c) }

  /** `[-_.]`. */
  predicate IsSeparator(c: char) { c == '-' || c == '_' || c == '.' }

  predicate IsSlugChar(c: char) { IsAlnum(c) || IsSeparator(c) }

  predicate IsHyphen(c: char) { c == '-' }

  /** `[-_]`. */
  predicate IsDashOrUnderscore(c: char) { c == '-' || c == '_' }

  /** What `/[^a-z0-9\s\-_.]/g` leaves in place. */
  predicate Kept(c: char) { IsSlugChar(c) || IsSpace(c) }

  /** A slug: letters, digits and `-_.` only, no separator at either end, no `--`. */
  predicate IsSlug(s: string) {
    && (forall i | 0 <= i < |s| :: IsSlugChar(s[i]))
    && (s != [] ==> !IsSeparator(s[0]) && !IsSeparator(s[|s| - 1]))
    && NoDouble(s, IsHyphen)
  }

  /** `replace(/[-_.]+$/, '')`. */
  function StripTrailingSeparators(s: string): (r: string)
    ensures |r| <= |s| && r == s[..|r|]
    ensures forall i | |r| <= i < |s| :: IsSeparator(s[i])
    ensures r == [] || !IsSeparator(r[|r| - 1])
  {
    if s != [] && IsSeparator(s[|s| - 1]) then StripTrailingSeparators(s[..|s| - 1]) else s
  }

  /** `replace(/[^a-z0-9\s\-_.]/g, '')`. */
  function KeepSlugChars(s: string): string {
    Filter(s, Kept)
  }

  /** `replace(/\s+/g, '-')`. */
  function Hyphenate(s: string): string {
    ReplaceRuns(s, IsSpace, '-')
  }

  /** `replace(/-+/g, '-')`. */
  function CollapseHyphens(s: string): string {
    ReplaceRuns(s, IsHyphen, '-')
  }

  /** `replace(/^[-_.]+/, '').replace(/[-_.]+$/, '')`. */
  function StripSeparators(s: string): string {
    StripTrailingSeparators(SkipRun(s, IsSeparator))
  }

  /** `toSlug`: trim, lower-case, drop every character outside `[a-z0-9\s\-_.]`, turn
      whitespace runs into `-`, collapse `-` runs, strip separators at both ends. */
  function ToSlug(name: string): string {
    StripSeparators(CollapseHyphens(Hyphenate(KeepSlugChars(ToLower(Trim(name))))))
  }

  lemma SlugCharNotSpace(c: char)
    ensures IsSlugChar(c) ==> !IsSpace(c) && !IsUpper(c)
  {
  }

  lemma KeepSlugCharsChars(s: string)
    ensures forall c | c in KeepSlugChars(s) :: Kept(c)
  {
  }

  lemma HyphenateChars(s: string)
    requires forall c | c in s :: Kept(c)
    ensures forall c | c in Hyphenate(s) :: IsSlugChar(c)
  {
    ReplaceRunsChars(s, IsSpace, '-');
  }

  lemma CollapseHyphensSlugChars(s: string)
    requires forall c | c in s :: IsSlugChar(c)
    ensures forall c | c in CollapseHyphens(s) :: IsSlugChar(c)
    ensures NoDouble(CollapseHyphens(s), IsHyphen)
  {
    ReplaceRunsChars(s, IsHyphen, '-');
    ReplaceRunsNoDouble(s, IsHyphen, '-');
  }

  /** Slug characters without `--`: what a slice of such a text still is. */
  predicate SlugBody(s: string) {
    (forall i | 0 <= i < |s| :: IsSlugChar(s[i])) && NoDouble(s, IsHyphen)
  }

  lemma SuffixSlugBody(s: string, k: nat)
    requires k <= |s| && SlugBody(s)
    ensures SlugBody(s[k..])
  {
    var t := s[k..];
    forall i | 0 <= i < |t| - 1
      ensures !(IsHyphen(t[i]) && IsHyphen(t[i + 1]))
    {
      assert t[i] == s[k + i] && t[i + 1] == s[k + i + 1];
    }
  }

  lemma PrefixSlugBody(s: string, k: nat)
    requires k <= |s| && SlugBody(s)
    ensures SlugBody(s[..k])
  {
  }

  lemma StripSeparatorsSlug(s: string)
    requires SlugBody(s)
    ensures IsSlug(StripSeparators(s))
  {
    var lead := SkipRun(s, IsSeparator);
    SuffixSlugBody(s, |s| - |lead|);
    var slug := StripTrailingSeparators(lead);
    PrefixSlugBody(lead, |slug|);
    if slug != [] {
      assert slug[0] == lead[0];
    }
  }

  /** The result of `toSlug` is always a slug. */
  lemma ToSlugIsSlug(name: string)
    ensures IsSlug(ToSlug(name))
  {
    var kept := KeepSlugChars(ToLower(Trim(name)));
    KeepSlugCharsChars(ToLower(Trim(name)));
    HyphenateChars(kept);
    CollapseHyphensSlugChars(Hyphenate(kept));
    var collapsed := CollapseHyphens(Hyphenate(kept));
    assert forall i | 0 <= i < |collapsed| :: IsSlugChar(collapsed[i]) by {
      forall i | 0 <= i < |collapsed| ensures IsSlugChar(collapsed[i]) {
        assert collapsed[i] in collapsed;
      }
    }
    assert SlugBody(collapsed);
    StripSeparatorsSlug(collapsed);
  }

  /** Lower-casing never turns whitespace into a letter or digit. */
  lemma SpacesHaveNoAlnum(s: string)
    requires AllSpace(s)
    ensures Filter(ToLower(s), IsAlnum) == []
  {
    FilterNone(ToLower(s), IsAlnum);
  }

  /** Whitespace around a text adds no letter or digit. */
  lemma SpacesAroundKeepAlnums(pre: string, t: string, post: string)
    requires AllSpace(pre) && AllSpace(post)
    ensures Filter(ToLower(pre + (t + post)), IsAlnum) == Filter(ToLower(t), IsAlnum)
  {
    ToLowerAppend(pre, t + post);
    ToLowerAppend(t, post);
    FilterAppend(ToLower(pre), ToLower(t) + ToLower(post), IsAlnum);
    FilterAppend(ToLower(t), ToLower(post), IsAlnum);
    SpacesHaveNoAlnum(pre);
    SpacesHaveNoAlnum(post);
  }

  /** Trimming loses no letter or digit. */
  lemma TrimKeepsAlnums(name: string)
    ensures Filter(ToLower(Trim(name)), IsAlnum) == Filter(ToLower(name), IsAlnum)
  {
    var pre, post := TrimParts(name);
    SpacesAroundKeepAlnums(pre, Trim(name), post);
  }

  lemma StripTrailingKeepsAlnums(s: string)
    ensures Filter(StripTrailingSeparators(s), IsAlnum) == Filter(s, IsAlnum)
  {
    var r := StripTrailingSeparators(s);
    SplitAt(s, |r|);
    FilterAppend(r, s[|r|..], IsAlnum);
    FilterNone(s[|r|..], IsAlnum);
  }

  lemma KeepSlugCharsKeepsAlnums(s: string)
    ensures Filter(KeepSlugChars(s), IsAlnum) == Filter(s, IsAlnum)
  {
    FilterFilter(s, Kept, IsAlnum);
  }

  lemma HyphenateKeepsAlnums(s: string)
    ensures Filter(Hyphenate(s), IsAlnum) == Filter(s, IsAlnum)
  {
    ReplaceRunsFilter(s, IsSpace, '-', IsAlnum);
  }

  lemma CollapseHyphensKeepsAlnums(s: string)
    ensures Filter(CollapseHyphens(s), IsAlnum) == Filter(s, IsAlnum)
  {
    ReplaceRunsFilter(s, IsHyphen, '-', IsAlnum);
  }

  lemma StripSeparatorsKeepsAlnums(s: string)
    ensures Filter(StripSeparators(s), IsAlnum) == Filter(s, IsAlnum)
  {
    FilterSkipsRun(s, IsSeparator, IsAlnum);
    StripTrailingKeepsAlnums(SkipRun(s, IsSeparator));
  }

  /** `toSlug` keeps every letter and digit of the lower-cased name, in order. */
  lemma ToSlugKeepsAlnums(name: string)
    ensures Filter(ToSlug(name), IsAlnum) == Filter(ToLower(name), IsAlnum)
  {
    var lower := ToLower(Trim(name));
    var kept := KeepSlugChars(lower);
    TrimKeepsAlnums(name);
    KeepSlugCharsKeepsAlnums(lower);
    HyphenateKeepsAlnums(kept);
    CollapseHyphensKeepsAlnums(Hyphenate(kept));
    StripSeparatorsKeepsAlnums(CollapseHyphens(Hyphenate(kept)));
  }

  lemma {:induction false} FilterEmptyIff(s: string, q: char -> bool)
    ensures Filter(s, q) == [] <==> forall i | 0 <= i < |s| :: !q(s[i])
  {
    if s != [] {
      FilterEmptyIff(s[1..], q);
      assert forall i | 1 <= i < |s| :: s[i] == s[1..][i - 1];
    }
  }

  /** An ASCII letter of either case, or a digit. */
  predicate IsAsciiAlnum(c: char) { IsUpper(c) || IsLower(c) || IsDigit(c) }

  /** A slug is empty exactly when it has no letter or digit: it cannot be made of
      separators alone. */
  lemma SlugEmptyIff(slug: string)
    requires IsSlug(slug)
    ensures slug == [] <==> Filter(slug, IsAlnum) == []
  {
    FilterEmptyIff(slug, IsAlnum);
    if slug != [] {
      assert IsAlnum(slug[0]);
    }
  }

  /** The lower-cased text has a letter or digit exactly when the text has an ASCII one. */
  lemma LowerAlnumIff(name: string)
    ensures Filter(ToLower(name), IsAlnum) == [] <==> forall i | 0 <= i < |name| :: !IsAsciiAlnum(name[i])
  {
    FilterEmptyIff(ToLower(name), IsAlnum);
    assert forall i | 0 <= i < |name| :: IsAlnum(ToLower(name)[i]) == IsAsciiAlnum(name[i]);
  }

  /** The slug is empty exactly when the name has no ASCII letter or digit. */
  lemma ToSlugEmptyIff(name: string)
    ensures ToSlug(name) == [] <==> forall i | 0 <= i < |name| :: !IsAsciiAlnum(name[i])
  {
    ToSlugKeepsAlnums(name);
    ToSlugIsSlug(name);
    SlugEmptyIff(ToSlug(name));
    LowerAlnumIff(name);
  }

  lemma SkipRunNone(s: string, p: char -> bool)
    requires s == [] || !p(s[0])
    ensures SkipRun(s, p) == s
  {
  }

  lemma {:induction false} LowerOfLower(s: string)
    requires forall i | 0 <= i < |s| :: !IsUpper(s[i])
    ensures ToLower(s) == s
  {
    assert forall i | 0 <= i < |s| :: ToLower(s)[i] == s[i];
  }

  /** Trimming and lower-casing leave a slug as it is. */
  lemma SlugTrimLower(s: string)
    requires IsSlug(s)
    ensures ToLower(Trim(s)) == s
  {
    SlugIsTrimmed(s);
    SlugHasNoUpper(s);
    LowerOfLower(s);
  }

  lemma SlugIsTrimmed(s: string)
    requires IsSlug(s)
    ensures Trim(s) == s
  {
    if s != [] {
      SlugCharNotSpace(s[0]);
      SlugCharNotSpace(s[|s| - 1]);
    }
    TrimNoEdgeSpace(s);
  }

  lemma SlugHasNoUpper(s: string)
    requires IsSlug(s)
    ensures forall i | 0 <= i < |s| :: !IsUpper(s[i])
  {
    forall i | 0 <= i < |s| ensures !IsUpper(s[i]) {
      SlugCharNotSpace(s[i]);
    }
  }

  /** No character of a slug is dropped, and it has no whitespace or `-` run to collapse. */
  lemma SlugStages(s: string)
    requires IsSlug(s)
    ensures CollapseHyphens(Hyphenate(KeepSlugChars(s))) == s
  {
    FilterAll(s, Kept);
    forall i | 0 <= i < |s| ensures !IsSpace(s[i]) {
      SlugCharNotSpace(s[i]);
    }
    ReplaceRunsIdentity(s, IsSpace, '-');
    ReplaceRunsIdentity(s, IsHyphen, '-');
  }

  /** A slug is its own slug. */
  lemma ToSlugOfSlug(s: string)
    requires IsSlug(s)
    ensures ToSlug(s) == s
  {
    SlugTrimLower(s);
    SlugStages(s);
    SkipRunNone(s, IsSeparator);
  }

  /** `toSlug` is idempotent. */
  lemma ToSlugIdempotent(name: string)
    ensures ToSlug(ToSlug(name)) == ToSlug(name)
  {
    ToSlugIsSlug(name);
    ToSlugOfSlug(ToSlug(name));
  }

  /** `sanitizeProjectName`, kept for compatibility: the slug under its old name. */
  function SanitizeProjectName(name: string): (r: string)
    ensures IsSlug(r)
    ensures Filter(r, IsAlnum) == Filter(ToLower(name), IsAlnum)
  {
    ToSlugIsSlug(name);
    ToSlugKeepsAlnums(name);
    ToSlug(name)
  }

  /* ── toDisplayName ── */

  predicate HasSpace(s: string) { exists i | 0 <= i < |s| :: IsSpace(s[i]) }

  predicate HasUpper(s: string) { exists i | 0 <= i < |s| :: IsUpper(s[i]) }

  /** `\b\w` at `i`: a word character with no word character just before it. */
  predicate WordStart(s: string, i: int)
    requires 0 <= i < |s|
  {
    IsWordChar(s[i]) && (i == 0 || !IsWordChar(s[i - 1]))
  }

  /** `replace(/\b\w/g, c => c.toUpperCase())`: the first character of every word is
      no longer lower case, every other character is left alone, and only case changes. */
  function CapitalizeWords(s: string): (r: string)
    ensures |r| == |s|
    ensures forall i | 0 <= i < |s| && WordStart(s, i) :: !IsLower(r[i])
    ensures forall i | 0 <= i < |s| && !WordStart(s, i) :: r[i] == s[i]
    ensures ToLower(r) == ToLower(s)
  {
    seq(|s|, i requires 0 <= i < |s| => if WordStart(s, i) then ToUpperChar(s[i]) else s[i])
  }

  predicate NotSpace(c: char) { !IsSpace(c) }

  /** `replace(/\s+/g, ' ')`. */
  function CollapseSpaces(s: string): string {
    ReplaceRuns(s, IsSpace, ' ')
  }

  /** `replace(/[-_]+/g, ' ')`. */
  function SpaceSeparators(s: string): string {
    ReplaceRuns(s, IsDashOrUnderscore, ' ')
  }

  /** `toDisplayName`: free text (whitespace or a capital letter after trimming) keeps
      its words with whitespace runs collapsed; a slug has its `-`/`_` runs turned into
      spaces and every word capitalised. */
  function ToDisplayName(name: string): string {
    var trimmed := Trim(name);
    if HasSpace(trimmed) || HasUpper(trimmed) then CollapseSpaces(trimmed)
    else CapitalizeWords(SpaceSeparators(trimmed))
  }

  lemma CollapseSpacesProps(t: string)
    requires t != [] && !IsSpace(t[0]) && !IsSpace(t[|t| - 1])
    ensures var r := CollapseSpaces(t);
      && NoDouble(r, IsSpace)
      && (forall c | c in r && IsSpace(c) :: c == ' ')
      && Filter(r, NotSpace) == Filter(t, NotSpace)
      && r != [] && !IsSpace(r[0]) && !IsSpace(r[|r| - 1])
      && r == Squeeze(t, IsSpace, ' ', false)
  {
    ReplaceRunsSqueeze(t, IsSpace, ' ');
    ReplaceRunsNoDouble(t, IsSpace, ' ');
    ReplaceRunsChars(t, IsSpace, ' ');
    ReplaceRunsFilter(t, IsSpace, ' ', NotSpace);
    ReplaceRunsEnds(t, IsSpace, ' ');
  }

  /** Free text: single spaces between the same non-space characters, nothing
      blank at the ends; character by character, the trimmed name with each
      whitespace run read as one space. */
  lemma ToDisplayNameFreeText(name: string)
    requires HasSpace(Trim(name)) || HasUpper(Trim(name))
    ensures var r, t := ToDisplayName(name), Trim(name);
      && NoDouble(r, IsSpace)
      && (forall c | c in r && IsSpace(c) :: c == ' ')
      && Filter(r, NotSpace) == Filter(t, NotSpace)
      && r != [] && !IsSpace(r[0]) && !IsSpace(r[|r| - 1])
      && r == Squeeze(t, IsSpace, ' ', false)
  {
    var t := Trim(name);
    assert ToDisplayName(name) == CollapseSpaces(t);
    CollapseSpacesProps(t);
  }

  lemma CapitalizeWordsProps(s: string)
    requires forall i | 0 <= i < |s| :: !IsUpper(s[i]) && !IsDashOrUnderscore(s[i])
    ensures var r := CapitalizeWords(s);
      && (forall i | 0 <= i < |r| :: !IsDashOrUnderscore(r[i]))
      && (forall i | 0 <= i < |r| && WordStart(r, i) :: !IsLower(r[i]))
      && (forall i | 0 <= i < |r| && !WordStart(r, i) :: r[i] == s[i])
      && ToLower(r) == s
  {
    var r := CapitalizeWords(s);
    assert forall i | 0 <= i < |r| :: IsWordChar(r[i]) == IsWordChar(s[i]);
  }

  /** A slug: no `-` or `_` is left, every word starts with a non-lower-case
      character, every other character is the slug's own (with its separator runs read
      as one space each), and lower-casing gives back that spaced slug. */
  lemma ToDisplayNameFromSlug(name: string)
    requires !HasSpace(Trim(name)) && !HasUpper(Trim(name))
    ensures var r, spaced := ToDisplayName(name), SpaceSeparators(Trim(name));
      && (forall i | 0 <= i < |r| :: !IsDashOrUnderscore(r[i]))
      && (forall i | 0 <= i < |r| && WordStart(r, i) :: !IsLower(r[i]))
      && |r| == |spaced|
      && (forall i | 0 <= i < |r| && !WordStart(r, i) :: r[i] == spaced[i])
      && ToLower(r) == spaced
      && spaced == Squeeze(Trim(name), IsDashOrUnderscore, ' ', false)
  {
    var t := Trim(name);
    var spaced := SpaceSeparators(t);
    ReplaceRunsSqueeze(t, IsDashOrUnderscore, ' ');
    assert ToDisplayName(name) == CapitalizeWords(spaced);
    ReplaceRunsChars(t, IsDashOrUnderscore, ' ');
    forall i | 0 <= i < |spaced|
      ensures !IsUpper(spaced[i]) && !IsDashOrUnderscore(spaced[i])
    {
      assert spaced[i] in spaced;
    }
    CapitalizeWordsProps(spaced);
  }

  /* ── validation ── */

  /** `ValidationResult`. */
  datatype ValidationResult = ValidationResult(valid: bool, message: Option<string>)

  /** `validateNotEmpty`: invalid exactly when the value is blank, with a message
      naming the field. */
  function ValidateNotEmpty(value: string, fieldName: string): (v: ValidationResult)
    ensures v.valid <==> !AllSpace(value)
    ensures v.valid <==> v.message == None
    ensures !v.valid ==> v.message.Some? && StartsWith(v.message.value, fieldName)
  {
    TrimEmptyIffAllSpace(value);
    if Trim(value) == [] then ValidationResult(false, Some(fieldName + " cannot be empty."))
    else ValidationResult(true, None)
  }

  /** What `validate-npm-package-name` reports for a slug. */
  datatype NpmVerdict = NpmVerdict(validForNewPackages: bool, errors: seq<string>, warnings: seq<string>)

  const EmptyNameMessage := "Project name cannot be empty."
  const NoAlnumMessage := "Project name must contain at least one letter or number."

  /** `validateProjectName`, with the npm-name check and the directory test passed in:
      a blank name is rejected first, then a name without a letter or digit, then a
      slug npm refuses, then a directory that already exists. */
  function ValidateProjectName(name: string, npmCheck: string -> NpmVerdict, dirExists: bool): (v: ValidationResult)
    ensures AllSpace(name) ==> v == ValidationResult(false, Some(EmptyNameMessage))
    ensures !AllSpace(name) && (forall i | 0 <= i < |name| :: !IsAsciiAlnum(name[i])) ==>
      v == ValidationResult(false, Some(NoAlnumMessage))
    ensures v.valid <==>
      && !AllSpace(name)
      && (exists i | 0 <= i < |name| :: IsAsciiAlnum(name[i]))
      && npmCheck(ToSlug(name)).validForNewPackages
      && !dirExists
    ensures v.valid ==> IsSlug(ToSlug(name)) && ToSlug(name) != []
  {
    TrimEmptyIffAllSpace(name);
    ToSlugEmptyIff(name);
    ToSlugIsSlug(name);
    if Trim(name) == [] then ValidationResult(false, Some(EmptyNameMessage))
    else
      var slug := ToSlug(name);
      if slug == [] then ValidationResult(false, Some(NoAlnumMessage))
      else
        var npm := npmCheck(slug);
        if !npm.validForNewPackages then
          ValidationResult(false, Some("Invalid package name \"" + slug + "\": " + Join(npm.errors + npm.warnings, ", ")))
        else if dirExists then
          ValidationResult(false, Some("Directory \"" + slug + "\" already exists. Choose a different name or delete the existing directory."))
        else ValidationResult(true, None)
  }
}
