/**
 * String primitives of JavaScript that the CLI relies on: `trim`, the `\s`
 * character class, `startsWith` / `endsWith` / `indexOf` / `includes`,
 * `toLowerCase` / `toUpperCase` (restricted to ASCII), `split` and `join`.
 */
module Text {

  /** JavaScript's `\s` and the characters `String.prototype.trim` removes:
      WhiteSpace and LineTerminator code points. */
  predicate IsSpace(c: char) {
    c == '\t' || c == '\n' || c == '\U{000B}' || c == '\U{000C}' || c == '\r' || c == ' '
    || c == '\U{00A0}' || c == '\U{1680}' || ('\U{2000}' <= c <= '\U{200A}')
    || c == '\U{2028}' || c == '\U{2029}' || c == '\U{202F}' || c == '\U{205F}'
    || c == '\U{3000}' || c == '\U{FEFF}'
  }

  /** The characters after which a regular expression with the `m` flag lets `^` match. */
  predicate IsLineTerminator(c: char) {
    c == '\n' || c == '\r' || c == '\U{2028}' || c == '\U{2029}'
  }

  predicate IsUpper(c: char) { 'A' <= c <= 'Z' }
  predicate IsLower(c: char) { 'a' <= c <= 'z' }
  predicate IsDigit(c: char) { '0' <= c <= '9' }

  /** JavaScript's `\w` without the `u` flag. */
  predicate IsWordChar(c: char) { IsUpper(c) || IsLower(c) || IsDigit(c) || c == '_' }

  function ToLowerChar(c: char): (r: char)
    ensures IsUpper(c) ==> IsLower(r) && r as int == c as int + 32
    ensures !IsUpper(c) ==> r == c
  {
    if IsUpper(c) then (c as int + 32) as char else c
  }

  function ToUpperChar(c: char): (r: char)
    ensures IsLower(c) ==> IsUpper(r) && r as int == c as int - 32
    ensures !IsLower(c) ==> r == c
  {
    if IsLower(c) then (c as int - 32) as char else c
  }

  /** `toLowerCase`, for the ASCII letters. */
  function ToLower(s: string): (r: string)
    ensures |r| == |s|
    ensures forall i | 0 <= i < |s| :: r[i] == ToLowerChar(s[i])
  {
    seq(|s|, i requires 0 <= i < |s| => ToLowerChar(s[i]))
  }

  lemma ToLowerAppend(a: string, b: string)
    ensures ToLower(a + b) == ToLower(a) + ToLower(b)
  {
  }

  predicate AllSpace(s: string) {
    forall i | 0 <= i < |s| :: IsSpace(s[i])
  }

  /** Leading whitespace removed. */
  function TrimStart(s: string): (r: string)
    ensures |r| <= |s| && r == s[|s| - |r|..]
    ensures AllSpace(s[..|s| - |r|])
    ensures r == [] || !IsSpace(r[0])
  {
    if s != [] && IsSpace(s[0]) then TrimStart(s[1..]) else s
  }

  /** Trailing whitespace removed. */
  function TrimEnd(s: string): (r: string)
    ensures |r| <= |s| && r == s[..|r|]
    ensures AllSpace(s[|r|..])
    ensures r == [] || !IsSpace(r[|r| - 1])
  {
    if s != [] && IsSpace(s[|s| - 1]) then TrimEnd(s[..|s| - 1]) else s
  }

  /** `String.prototype.trim`. */
  function Trim(s: string): (r: string)
    ensures |r| <= |s|
    ensures r == [] || (!IsSpace(r[0]) && !IsSpace(r[|r| - 1]))
  {
    TrimEnd(TrimStart(s))
  }

  /** The content of `s` is empty or only whitespace exactly when trimming leaves nothing. */
  lemma TrimEmptyIffAllSpace(s: string)
    ensures Trim(s) == [] <==> AllSpace(s)
  {
    var t := TrimStart(s);
    assert s == s[..|s| - |t|] + t;
  }

  /** Trimming cuts whitespace off both ends and nothing else. */
  lemma TrimParts(s: string) returns (pre: string, post: string)
    ensures s == pre + (Trim(s) + post)
    ensures AllSpace(pre) && AllSpace(post)
  {
    var a := TrimStart(s);
    var t := TrimEnd(a);
    pre, post := s[..|s| - |a|], a[|t|..];
    SplitAt(a, |t|);
    SplitAt(s, |s| - |a|);
  }

  /** A text is its two halves around any cut. */
  lemma SplitAt(s: string, k: nat)
    requires k <= |s|
    ensures s == s[..k] + s[k..]
  {
  }

  /** Trimming removes whitespace only from the ends: a string whose ends are not
      whitespace is its own trim. */
  lemma TrimNoEdgeSpace(s: string)
    requires s == [] || (!IsSpace(s[0]) && !IsSpace(s[|s| - 1]))
    ensures Trim(s) == s
  {
  }

  /** `startsWith`. */
  predicate StartsWith(s: string, p: string) {
    |p| <= |s| && s[..|p|] == p
  }

  /** `endsWith`. */
  predicate EndsWith(s: string, p: string) {
    |p| <= |s| && s[|s| - |p|..] == p
  }

  /** `p` occurs in `s` at index `i`. */
  predicate HasAt(s: string, i: int, p: string) {
    0 <= i && i + |p| <= |s| && s[i..i + |p|] == p
  }

  /** `s.indexOf(p, from)` for a non-empty `p`: the first index at or after `from`
      where `p` occurs, or -1. */
  function IndexOf(s: string, p: string, from: nat): (r: int)
    requires p != []
    ensures r == -1 || (from <= r && HasAt(s, r, p))
    ensures r == -1 <==> forall k | from <= k :: !HasAt(s, k, p)
    ensures r != -1 ==> forall k | from <= k < r :: !HasAt(s, k, p)
    decreases |s| - from
  {
    if from + |p| > |s| then -1
    else if s[from..from + |p|] == p then from
    else IndexOf(s, p, from + 1)
  }

  /** `s.includes(p)` for a non-empty `p`. */
  predicate Includes(s: string, p: string)
    requires p != []
  {
    IndexOf(s, p, 0) != -1
  }

  lemma IncludesAt(s: string, p: string, i: int)
    requires p != [] && HasAt(s, i, p)
    ensures Includes(s, p)
  {
  }

  /** An occurrence inside a prefix is an occurrence in the whole string. */
  lemma IncludesPrefix(a: string, b: string, p: string)
    requires p != [] && Includes(a, p)
    ensures Includes(a + b, p)
  {
    var i := IndexOf(a, p, 0);
    assert (a + b)[i..i + |p|] == a[i..i + |p|];
    IncludesAt(a + b, p, i);
  }

  /** An occurrence inside a suffix is an occurrence in the whole string. */
  lemma IncludesSuffix(a: string, b: string, p: string)
    requires p != [] && Includes(b, p)
    ensures Includes(a + b, p)
  {
    var i := IndexOf(b, p, 0);
    assert (a + b)[|a| + i..|a| + i + |p|] == b[i..i + |p|];
    IncludesAt(a + b, p, |a| + i);
  }

  /** `parts.join(sep)`. */
  function Join(parts: seq<string>, sep: string): (r: string)
    ensures parts == [] ==> r == []
    ensures |parts| == 1 ==> r == parts[0]
  {
    if parts == [] then []
    else if |parts| == 1 then parts[0]
    else parts[0] + sep + Join(parts[1..], sep)
  }

  /** `s.split(sep)` for a single-character separator: the pieces between separators,
      one more piece than there are separators. */
  function Split(s: string, sep: char): (r: seq<string>)
    ensures |r| >= 1
    ensures forall k | 0 <= k < |r| :: sep !in r[k]
    ensures Join(r, [sep]) == s
  {
    if sep !in s then [s]
    else
      var i := FirstIndex(s, sep);
      [s[..i]] + Split(s[i + 1..], sep)
  }

  function FirstIndex(s: string, c: char): (i: nat)
    requires c in s
    ensures i < |s| && s[i] == c && c !in s[..i]
  {
    if s[0] == c then 0 else 1 + FirstIndex(s[1..], c)
  }

  /** `s.replace(/c/g, '')`: every occurrence of `c` removed. */
  function RemoveChar(s: string, c: char): (r: string)
    ensures c !in r
    ensures |r| <= |s|
    ensures c !in s ==> r == s
  {
    if s == [] then []
    else (if s[0] == c then [] else [s[0]]) + RemoveChar(s[1..], c)
  }

  /** `s.replace(/a/g, b)` for single characters. */
  function ReplaceChar(s: string, a: char, b: char): (r: string)
    ensures |r| == |s|
    ensures forall i | 0 <= i < |s| :: r[i] == if s[i] == a then b else s[i]
  {
    seq(|s|, i requires 0 <= i < |s| => if s[i] == a then b else s[i])
  }

  /** `s` with its leading characters satisfying `p` removed. */
  function SkipRun(s: string, p: char -> bool): (r: string)
    ensures |r| <= |s| && r == s[|s| - |r|..]
    ensures forall i | 0 <= i < |s| - |r| :: p(s[i])
    ensures r == [] || !p(r[0])
    ensures s != [] && p(s[0]) ==> |r| < |s|
  {
    if s != [] && p(s[0]) then SkipRun(s[1..], p) else s
  }

  /** `s.replace(/[class]+/g, r)`: every maximal run of characters satisfying `p`
      becomes the single character `r`. */
  function ReplaceRuns(s: string, p: char -> bool, r: char): (out: string)
    decreases |s|
  {
    if s == [] then []
    else if p(s[0]) then [r] + ReplaceRuns(SkipRun(s, p), p, r)
    else [s[0]] + ReplaceRuns(s[1..], p, r)
  }

  /** The same replacement read one character at a time, as a scanner would: a
      character satisfying `p` becomes `r` when the character before it did not satisfy
      `p`, and is dropped when it did; every other character is kept. `afterRun` says
      whether the character just before `s` satisfied `p`. */
  function Squeeze(s: string, p: char -> bool, r: char, afterRun: bool): string {
    if s == [] then []
    else if p(s[0]) then (if afterRun then [] else [r]) + Squeeze(s[1..], p, r, true)
    else [s[0]] + Squeeze(s[1..], p, r, false)
  }

  /** Inside a run the scanner drops characters until the run ends. */
  lemma {:induction false} SqueezeSkipsRun(s: string, p: char -> bool, r: char)
    ensures Squeeze(s, p, r, true) == Squeeze(SkipRun(s, p), p, r, false)
  {
    if s != [] && p(s[0]) {
      SqueezeSkipsRun(s[1..], p, r);
    }
  }

  /** Replacing maximal runs and scanning character by character agree. */
  lemma {:induction false} ReplaceRunsSqueeze(s: string, p: char -> bool, r: char)
    ensures ReplaceRuns(s, p, r) == Squeeze(s, p, r, false)
    decreases |s|
  {
    if s != [] {
      if p(s[0]) {
        SqueezeSkipsRun(s[1..], p, r);
        assert SkipRun(s, p) == SkipRun(s[1..], p);
        ReplaceRunsSqueeze(SkipRun(s, p), p, r);
      } else {
        ReplaceRunsSqueeze(s[1..], p, r);
      }
    }
  }

  /** The characters of `s` that satisfy `q`, in order. */
  function Filter(s: string, q: char -> bool): (r: string)
    ensures |r| <= |s|
    ensures forall i | 0 <= i < |r| :: q(r[i])
  {
    if s == [] then [] else (if q(s[0]) then [s[0]] else []) + Filter(s[1..], q)
  }

  lemma {:induction false} FilterMembers(s: string, q: char -> bool)
    ensures forall c | c in Filter(s, q) :: c in s
  {
    if s != [] {
      FilterMembers(s[1..], q);
    }
  }

  lemma {:induction false} FilterAppend(a: string, b: string, q: char -> bool)
    ensures Filter(a + b, q) == Filter(a, q) + Filter(b, q)
  {
    if a != [] {
      var h: string := if q(a[0]) then [a[0]] else [];
      assert (a + b)[0] == a[0];
      assert (a + b)[1..] == a[1..] + b;
      FilterAppend(a[1..], b, q);
      assert Filter(a + b, q) == h + Filter(a[1..] + b, q);
      assert Filter(a, q) == h + Filter(a[1..], q);
    } else {
      assert a + b == b;
    }
  }

  lemma {:induction false} FilterNone(s: string, q: char -> bool)
    requires forall i | 0 <= i < |s| :: !q(s[i])
    ensures Filter(s, q) == []
  {
    if s != [] {
      FilterNone(s[1..], q);
    }
  }

  lemma {:induction false} FilterAll(s: string, q: char -> bool)
    requires forall i | 0 <= i < |s| :: q(s[i])
    ensures Filter(s, q) == s
  {
    if s != [] {
      FilterAll(s[1..], q);
    }
  }

  /** Filtering first by a weaker test changes nothing. */
  lemma {:induction false} FilterFilter(s: string, q1: char -> bool, q2: char -> bool)
    requires forall i | 0 <= i < |s| :: q2(s[i]) ==> q1(s[i])
    ensures Filter(Filter(s, q1), q2) == Filter(s, q2)
  {
    if s != [] {
      FilterFilter(s[1..], q1, q2);
      var f := Filter(s, q1);
      if q1(s[0]) {
        assert f == [s[0]] + Filter(s[1..], q1);
        assert f != [] && f[0] == s[0] && f[1..] == Filter(s[1..], q1);
      } else {
        assert f == Filter(s[1..], q1);
      }
    }
  }

  /** Every output character is `r` or a character of `s` outside the class. */
  lemma {:induction false} ReplaceRunsChars(s: string, p: char -> bool, r: char)
    ensures forall c | c in ReplaceRuns(s, p, r) :: c == r || (c in s && !p(c))
    decreases |s|
  {
    if s != [] {
      if p(s[0]) {
        var t := SkipRun(s, p);
        ReplaceRunsChars(t, p, r);
        assert forall c | c in t :: c in s;
      } else {
        ReplaceRunsChars(s[1..], p, r);
      }
    }
  }

  /** No two neighbouring characters of `s` are in the class. */
  predicate NoDouble(s: string, p: char -> bool) {
    forall i | 0 <= i < |s| - 1 :: !(p(s[i]) && p(s[i + 1]))
  }

  /** When `r` is in the class, no two neighbours of the output are in it. */
  lemma {:induction false} ReplaceRunsNoDouble(s: string, p: char -> bool, r: char)
    requires p(r)
    ensures NoDouble(ReplaceRuns(s, p, r), p)
    decreases |s|
  {
    if s != [] {
      if p(s[0]) {
        var t := SkipRun(s, p);
        ReplaceRunsNoDouble(t, p, r);
        if t != [] {
          assert ReplaceRuns(t, p, r)[0] == t[0];
        }
      } else {
        ReplaceRunsNoDouble(s[1..], p, r);
        var rest := ReplaceRuns(s[1..], p, r);
        assert NoDouble(rest, p);
        var out := ReplaceRuns(s, p, r);
        assert out == [s[0]] + rest;
        forall i | 0 <= i < |out| - 1
          ensures !(p(out[i]) && p(out[i + 1]))
        {
          if i > 0 {
            var j := i - 1;
            assert out[i] == rest[j] && out[i + 1] == rest[j + 1];
            assert !(p(rest[j]) && p(rest[j + 1]));
          }
        }
      }
    }
  }

  /** A text whose class characters are already single `r`s is left as it is. */
  lemma {:induction false} ReplaceRunsIdentity(s: string, p: char -> bool, r: char)
    requires forall i | 0 <= i < |s| :: p(s[i]) ==> s[i] == r
    requires NoDouble(s, p)
    ensures ReplaceRuns(s, p, r) == s
  {
    if s != [] {
      if p(s[0]) {
        assert s[1..] == [] || !p(s[1]);
        assert SkipRun(s[1..], p) == s[1..];
      }
      ReplaceRunsIdentity(s[1..], p, r);
    }
  }

  /** Skipping a run of class characters loses nothing the filter keeps. */
  lemma {:induction false} FilterSkipsRun(s: string, p: char -> bool, q: char -> bool)
    requires forall c | c in s :: p(c) ==> !q(c)
    ensures Filter(SkipRun(s, p), q) == Filter(s, q)
  {
    if s != [] && p(s[0]) {
      FilterSkipsRun(s[1..], p, q);
    }
  }

  /** Characters that neither the class nor `r` can be are kept, in order. */
  lemma {:induction false} ReplaceRunsFilter(s: string, p: char -> bool, r: char, q: char -> bool)
    requires !q(r)
    requires forall c | c in s :: p(c) ==> !q(c)
    ensures Filter(ReplaceRuns(s, p, r), q) == Filter(s, q)
    decreases |s|
  {
    if s != [] {
      if p(s[0]) {
        var t := SkipRun(s, p);
        FilterSkipsRun(s, p, q);
        ReplaceRunsFilter(t, p, r, q);
        FilterAppend([r], ReplaceRuns(t, p, r), q);
        assert Filter([r], q) == [];
        assert ReplaceRuns(s, p, r) == [r] + ReplaceRuns(t, p, r);
      } else {
        ReplaceRunsFilter(s[1..], p, r, q);
        FilterAppend([s[0]], ReplaceRuns(s[1..], p, r), q);
        assert ReplaceRuns(s, p, r) == [s[0]] + ReplaceRuns(s[1..], p, r);
      }
    }
  }

  /** The ends of the output: a first (last) character outside the class survives,
      one inside becomes `r`. */
  lemma {:induction false} ReplaceRunsEnds(s: string, p: char -> bool, r: char)
    ensures s == [] <==> ReplaceRuns(s, p, r) == []
    ensures s != [] ==> ReplaceRuns(s, p, r)[0] == if p(s[0]) then r else s[0]
    ensures s != [] && !p(s[|s| - 1]) ==> ReplaceRuns(s, p, r)[|ReplaceRuns(s, p, r)| - 1] == s[|s| - 1]
    decreases |s|
  {
    if s != [] {
      if p(s[0]) {
        var t := SkipRun(s, p);
        ReplaceRunsEnds(t, p, r);
        if !p(s[|s| - 1]) {
          assert t != [] && t[|t| - 1] == s[|s| - 1];
        }
      } else {
        ReplaceRunsEnds(s[1..], p, r);
      }
    }
  }
}
