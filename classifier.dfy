/**
 * The content classifier of the upgrade/repair engine (src/generators/index.ts):
 * whether a file's text was marked populated, and whether it is structurally
 * corrupted.
 */
module Classifier {
  import opened Text

  const Fence := "---"
  const StatusKey := "status:"
  const PopulatedWord := "populated"

  /** `^` under the `m` flag: the start of the text or just after a line terminator. */
  predicate LineStart(c: string, i: int) {
    i == 0 || (0 < i <= |c| && IsLineTerminator(c[i - 1]))
  }

  /** Every character of `c[a..b]` matches `\s`. */
  predicate SpacesBetween(c: string, a: int, b: int) {
    0 <= a <= b <= |c| && forall k | a <= k < b :: IsSpace(c[k])
  }

  /** The value part of a match: the key at `j`, whitespace up to `populated` at `w`,
      and a fence at `e` after the value. */
  predicate ValueMatch(c: string, j: int, w: int, e: int) {
    HasAt(c, j, StatusKey) && SpacesBetween(c, j + 7, w) && HasAt(c, w, PopulatedWord)
    && w + 9 <= e && HasAt(c, e, Fence)
  }

  /** A whole match: a fence at the line start `i` and the value part past it. */
  predicate MatchAt(c: string, i: int, j: int, w: int, e: int) {
    LineStart(c, i) && HasAt(c, i, Fence) && i + 3 <= j && ValueMatch(c, j, w, e)
  }

  /** What `/^---[\s\S]*?status:\s*populated[\s\S]*?---/m` accepts, stated as the
      existence of a match. The lazy quantifiers change which match is found, never
      whether one exists. */
  ghost predicate PopulatedPattern(c: string) {
    exists i, j, w, e :: MatchAt(c, i, j, w, e)
  }

  /** The first index at or after `k` that is not whitespace (or the end). */
  function SkipSpaces(c: string, k: nat): (r: nat)
    requires k <= |c|
    ensures k <= r <= |c| && SpacesBetween(c, k, r)
    ensures r == |c| || !IsSpace(c[r])
    decreases |c| - k
  {
    if k < |c| && IsSpace(c[k]) then SkipSpaces(c, k + 1) else k
  }

  /** The key sits at `j`, its value after optional whitespace is `populated`, and a
      fence follows somewhere after the value. */
  predicate StatusPopulatedAt(c: string, j: nat) {
    && HasAt(c, j, StatusKey)
    && var w := SkipSpaces(c, j + 7);
       HasAt(c, w, PopulatedWord) && IndexOf(c, Fence, w + 9) != -1
  }

  /** Some key position at or after `j` completes a match. */
  predicate PopulatedFrom(c: string, j: nat)
    decreases |c| - j
  {
    j < |c| && (StatusPopulatedAt(c, j) || PopulatedFrom(c, j + 1))
  }

  /** A fence at the line start `i` that some key after it completes. */
  predicate OpensAt(c: string, i: nat) {
    LineStart(c, i) && HasAt(c, i, Fence) && PopulatedFrom(c, i + 3)
  }

  /** Some fence at a line start at or after `i` opens a match. */
  predicate OpenedFrom(c: string, i: nat)
    decreases |c| - i
  {
    i < |c| && (OpensAt(c, i) || OpenedFrom(c, i + 1))
  }

  /** `isPopulated`: a scan for the pattern, fence by fence and key by key. */
  predicate IsPopulated(c: string) {
    OpenedFrom(c, 0)
  }

  lemma {:induction false} StatusPopulatedAtSpec(c: string, j: nat)
    ensures StatusPopulatedAt(c, j) <==> exists w, e :: ValueMatch(c, j, w, e)
  {
    if HasAt(c, j, StatusKey) {
      var w0 := SkipSpaces(c, j + 7);
      if StatusPopulatedAt(c, j) {
        var e := IndexOf(c, Fence, w0 + 9);
        assert ValueMatch(c, j, w0, e);
      }
      forall w, e | ValueMatch(c, j, w, e)
        ensures StatusPopulatedAt(c, j)
      {
        assert c[w] == 'p' by {
          assert c[w..w + 9] == PopulatedWord;
          assert c[w..w + 9][0] == c[w];
        }
        assert w == w0;
        assert IndexOf(c, Fence, w0 + 9) != -1 by { assert HasAt(c, e, Fence) && w0 + 9 <= e; }
      }
    }
  }

  lemma {:induction false} PopulatedFromSpec(c: string, j0: nat)
    ensures PopulatedFrom(c, j0) <==> exists j: nat :: j0 <= j && StatusPopulatedAt(c, j)
    decreases |c| - j0
  {
    if j0 < |c| {
      PopulatedFromSpec(c, j0 + 1);
    }
  }

  lemma {:induction false} OpenedFromSpec(c: string, i0: nat)
    ensures OpenedFrom(c, i0) <==> exists i: nat :: i0 <= i && OpensAt(c, i)
    decreases |c| - i0
  {
    if i0 < |c| {
      OpenedFromSpec(c, i0 + 1);
    }
  }

  lemma ScanFindsPattern(c: string)
    requires IsPopulated(c)
    ensures PopulatedPattern(c)
  {
    OpenedFromSpec(c, 0);
    var i: nat :| OpensAt(c, i);
    PopulatedFromSpec(c, i + 3);
    var j: nat :| i + 3 <= j && StatusPopulatedAt(c, j);
    StatusPopulatedAtSpec(c, j);
    var w, e :| ValueMatch(c, j, w, e);
    assert MatchAt(c, i, j, w, e);
  }

  lemma PatternFoundByScan(c: string)
    requires PopulatedPattern(c)
    ensures IsPopulated(c)
  {
    var i, j, w, e :| MatchAt(c, i, j, w, e);
    StatusPopulatedAtSpec(c, j);
    PopulatedFromSpec(c, i + 3);
    assert OpensAt(c, i);
    OpenedFromSpec(c, 0);
  }

  /** The scan is exactly the regular expression as written (not the "leading
      frontmatter" its doc comment describes): the fence may open at any line, the
      whitespace may span lines, `populated` needs no word boundary, and the closing
      fence may lie anywhere after the value. */
  lemma IsPopulatedIsPattern(c: string)
    ensures IsPopulated(c) <==> PopulatedPattern(c)
  {
    if IsPopulated(c) {
      ScanFindsPattern(c);
    }
    if PopulatedPattern(c) {
      PatternFoundByScan(c);
    }
  }

  /** A populated text contains the word `populated`; so a text without it (an empty
      text, a `status: template` doc, a capitalised `Populated`) is not populated. */
  lemma PopulatedHasWord(c: string)
    requires IsPopulated(c)
    ensures Includes(c, PopulatedWord)
  {
    IsPopulatedIsPattern(c);
    var i, j, w, e :| MatchAt(c, i, j, w, e);
    IncludesAt(c, PopulatedWord, w);
  }

  /** A leading frontmatter block that says `status: populated`, with any amount of
      whitespace before the value, is populated. */
  lemma FrontmatterPopulated(pre: string, spaces: string, rest: string, post: string)
    requires AllSpace(spaces)
    ensures IsPopulated(Fence + pre + StatusKey + spaces + PopulatedWord + rest + Fence + post)
  {
    var c := Fence + pre + StatusKey + spaces + PopulatedWord + rest + Fence + post;
    var j := 3 + |pre|;
    var w := j + 7 + |spaces|;
    var e := w + 9 + |rest|;
    assert c[0..3] == Fence;
    assert c[j..j + 7] == StatusKey;
    assert c[w..w + 9] == PopulatedWord;
    assert c[e..e + 3] == Fence;
    assert SpacesBetween(c, j + 7, w) by {
      forall k | j + 7 <= k < w ensures IsSpace(c[k]) {
        assert c[k] == spaces[k - j - 7];
      }
    }
    assert MatchAt(c, 0, j, w, e);
    IsPopulatedIsPattern(c);
  }

  /** No occurrence of the letters `pop`: a cheap, compositional witness that a text
      cannot say `populated`. */
  predicate NoPop(s: string) {
    forall i | 0 <= i < |s| - 2 :: !PopAt(s, i)
  }

  /** The letters `pop` start at index `i`. */
  predicate PopAt(s: string, i: int)
    requires 0 <= i < |s| - 2
  {
    s[i] == 'p' && s[i + 1] == 'o' && s[i + 2] == 'p'
  }

  /** The last character could not begin a `pop` that crosses into what follows. */
  predicate SafeEnd(s: string) {
    s == [] || (s[|s| - 1] != 'p' && s[|s| - 1] != 'o')
  }

  /** The first character could not end a `pop` that crosses in from before. */
  predicate SafeStart(s: string) {
    s == [] || (s[0] != 'p' && s[0] != 'o')
  }

  /** Gluing two `pop`-free texts keeps them `pop`-free when the seam is safe. */
  lemma NoPopAppend(a: string, b: string)
    requires NoPop(a) && NoPop(b) && (SafeEnd(a) || SafeStart(b))
    ensures NoPop(a + b)
    ensures SafeEnd(b) && b != [] ==> SafeEnd(a + b)
    ensures SafeEnd(a) && b == [] ==> SafeEnd(a + b)
  {
    var c := a + b;
    forall i | 0 <= i < |c| - 2
      ensures !PopAt(c, i)
    {
      if i + 2 < |a| {
        assert !PopAt(a, i);
        assert c[i] == a[i] && c[i + 1] == a[i + 1] && c[i + 2] == a[i + 2];
      } else if |a| <= i {
        assert !PopAt(b, i - |a|);
        assert c[i] == b[i - |a|] && c[i + 1] == b[i + 1 - |a|] && c[i + 2] == b[i + 2 - |a|];
      } else if i + 1 == |a| {
        assert c[i] == a[|a| - 1] && c[i + 1] == b[0];
      } else {
        assert c[i + 1] == a[|a| - 1] && c[i + 2] == b[0];
      }
    }
    if b == [] {
      assert c == a;
    }
  }

  /** `a + b`, with the facts NoPopAppend gives about it; lets a proof walk a long
      concatenation left to right. */
  lemma Glue(a: string, b: string) returns (c: string)
    requires NoPop(a) && NoPop(b) && (SafeEnd(a) || SafeStart(b))
    ensures c == a + b && NoPop(c)
    ensures (SafeEnd(b) && b != []) || (SafeEnd(a) && b == []) ==> SafeEnd(c)
    ensures a != [] && SafeStart(a) ==> SafeStart(c)
  {
    NoPopAppend(a, b);
    c := a + b;
  }

  /** A fixed fragment that can be glued to anything `pop`-free on either side. */
  predicate Piece(s: string) {
    s != [] && NoPop(s) && SafeStart(s) && SafeEnd(s)
  }

  /** A populated text contains `pop`; so a text without it is not populated. */
  lemma NoPopNotPopulated(c: string)
    ensures IsPopulated(c) ==> !NoPop(c)
  {
    if IsPopulated(c) {
      PopulatedHasWord(c);
      WordHasPop(c);
    }
  }

  /** A text that contains `populated` contains `pop`. */
  lemma WordHasPop(c: string)
    requires Includes(c, PopulatedWord)
    ensures !NoPop(c)
  {
    var w := IndexOf(c, PopulatedWord, 0);
    var s := c[w..w + 9];
    assert s == PopulatedWord;
    assert s[0] == c[w] && s[1] == c[w + 1] && s[2] == c[w + 2];
    assert PopulatedWord[0] == 'p' && PopulatedWord[1] == 'o' && PopulatedWord[2] == 'p';
    assert PopAt(c, w);
  }

  /** The empty text is neither populated nor structurally sound. */
  lemma EmptyNotPopulated()
    ensures !IsPopulated("")
  {
  }

  /** `isCorrupted`, with `JSON.parse` success supplied as `parsesAsJson`. The rules
      are tried in order and the first that applies decides. */
  predicate IsCorrupted(path: string, content: string, parsesAsJson: string -> bool) {
    if Trim(content) == [] then true
    else if EndsWith(path, ".json") then !parsesAsJson(content)
    else if StartsWith(path, ".nexus/docs/") && !EndsWith(path, "knowledge.md") then
      !StartsWith(content, Fence) || IndexOf(content, Fence, 3) == -1
    else false
  }

  /** The corruption verdict, rule by rule: blank text; a JSON path decides by parsing
      alone; a doc other than the knowledge log needs an opening fence and a second
      fence at index 3 or later; everything else is sound. */
  lemma IsCorruptedRules(path: string, content: string, parsesAsJson: string -> bool)
    ensures AllSpace(content) ==> IsCorrupted(path, content, parsesAsJson)
    ensures !AllSpace(content) && EndsWith(path, ".json") ==>
      (IsCorrupted(path, content, parsesAsJson) <==> !parsesAsJson(content))
    ensures !AllSpace(content) && !EndsWith(path, ".json")
            && StartsWith(path, ".nexus/docs/") && !EndsWith(path, "knowledge.md") ==>
      (IsCorrupted(path, content, parsesAsJson) <==>
        (!StartsWith(content, Fence) || forall e | 3 <= e :: !HasAt(content, e, Fence)))
    ensures !AllSpace(content) && !EndsWith(path, ".json")
            && !(StartsWith(path, ".nexus/docs/") && !EndsWith(path, "knowledge.md")) ==>
      !IsCorrupted(path, content, parsesAsJson)
  {
    TrimEmptyIffAllSpace(content);
  }

  /** A text that opens with a fence and has a second fence later is a sound doc,
      whatever its path, unless the path is a JSON file. */
  lemma FencedNotCorrupted(path: string, content: string, e: nat, parsesAsJson: string -> bool)
    requires StartsWith(content, Fence) && 3 <= e && HasAt(content, e, Fence)
    requires !EndsWith(path, ".json")
    ensures !IsCorrupted(path, content, parsesAsJson)
  {
    assert content[0] == '-';
    TrimEmptyIffAllSpace(content);
  }
}
