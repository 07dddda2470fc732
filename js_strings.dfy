/** The string helpers the generators call: JavaScript's `substring` and
    `repeat`, `hyphenate` from `@vue/shared`, and the path helpers of
    `upath` (`removeExt`, `extname`, `basename`, `trimExt`). Strings are
    sequences of UTF-16 code units, modelled as `char`. The functions carry
    no postconditions, so that the generator's proofs do not pay for them;
    what they compute is stated by the lemmas after each. */
module JsStrings {

  /** A bound of `substring`, clamped to `[0, n]`. */
  function Clamp(x: int, n: nat): nat {
    if x < 0 then 0 else if x > n then n else x
  }

  /** `s.substring(start, end)`: both bounds are clamped to the string and
      swapped when `start > end`; it never throws. */
  function Substring(s: string, start: int, end: int): string {
    var a, b := Clamp(start, |s|), Clamp(end, |s|);
    if a <= b then s[a..b] else s[b..a]
  }

  /** Within bounds, `substring` is the slice; with its bounds swapped it
      is the same slice; beyond the string it stops at the string's end. */
  lemma SubstringSlice(s: string, start: int, end: int)
    ensures 0 <= start <= end <= |s| ==> Substring(s, start, end) == s[start..end]
    ensures 0 <= end <= start <= |s| ==> Substring(s, start, end) == s[end..start]
    ensures 0 <= start <= |s| <= end ==> Substring(s, start, end) == s[start..]
    ensures start <= 0 && |s| <= end ==> Substring(s, start, end) == s
    ensures |Substring(s, start, end)| <= |s|
  {
  }

  /** `' '.repeat(n)` for a count that does not make `repeat` throw. */
  function Spaces(n: nat): string {
    if n == 0 then [] else Spaces(n - 1) + " "
  }

  lemma {:induction false} SpacesAreSpaces(n: nat)
    ensures |Spaces(n)| == n
    ensures forall i :: 0 <= i < n ==> Spaces(n)[i] == ' '
  {
    if n > 0 {
      SpacesAreSpaces(n - 1);
    }
  }

  predicate EndsWith(s: string, suffix: string) {
    |suffix| <= |s| && s[|s| - |suffix|..] == suffix
  }

  predicate StartsWith(s: string, prefix: string) {
    |prefix| <= |s| && s[..|prefix|] == prefix
  }

  /** `upath.removeExt(s, ext)`, taken as: drop `ext` from the end of `s`
      when `s` ends with it, and leave `s` unchanged otherwise. */
  function RemoveExt(s: string, ext: string): string {
    if EndsWith(s, ext) then s[..|s| - |ext|] else s
  }

  lemma RemoveExtSpec(s: string, ext: string)
    ensures EndsWith(s, ext) ==> RemoveExt(s, ext) + ext == s
    ensures !EndsWith(s, ext) ==> RemoveExt(s, ext) == s
  {
  }

  /** Removing a suffix from what was built by appending it gives back the
      original string. */
  lemma RemoveExtAppended(x: string, ext: string)
    ensures RemoveExt(x + ext, ext) == x
  {
    assert (x + ext)[|x + ext| - |ext|..] == ext;
    assert (x + ext)[..|x + ext| - |ext|] == x;
  }

  /** The index of the last `c` in `s`, or -1. */
  function LastIndexOf(s: string, c: char): int {
    if |s| == 0 then -1
    else if s[|s| - 1] == c then |s| - 1
    else LastIndexOf(s[..|s| - 1], c)
  }

  lemma {:induction false} LastIndexOfSpec(s: string, c: char)
    ensures -1 <= LastIndexOf(s, c) < |s|
    ensures 0 <= LastIndexOf(s, c) ==> s[LastIndexOf(s, c)] == c
    ensures forall i :: LastIndexOf(s, c) < i < |s| ==> s[i] != c
    decreases |s|
  {
    if |s| > 0 && s[|s| - 1] != c {
      LastIndexOfSpec(s[..|s| - 1], c);
    }
  }

  /** `basename(p)`: what follows the last `/`. */
  function Basename(p: string): string {
    var k := LastIndexOf(p, '/');
    if -1 <= k < |p| then p[k + 1..] else p
  }

  lemma BasenameSpec(p: string)
    ensures EndsWith(p, Basename(p))
    ensures forall i :: 0 <= i < |Basename(p)| ==> Basename(p)[i] != '/'
  {
    LastIndexOfSpec(p, '/');
    var k := LastIndexOf(p, '/');
    var r := p[k + 1..];
    assert |p| - |r| == k + 1;
    assert forall i :: 0 <= i < |r| ==> r[i] == p[k + 1 + i];
  }

  /** `extname(p)`: the base name from its last `.` on, or empty when the
      base name has no `.` or only a leading one. */
  function Extname(p: string): string {
    var b := Basename(p);
    var k := LastIndexOf(b, '.');
    if 0 < k < |b| then b[k..] else []
  }

  lemma ExtnameSpec(p: string)
    ensures var e := Extname(p);
      e == [] || (e[0] == '.' && |e| < |Basename(p)| && EndsWith(Basename(p), e))
  {
    LastIndexOfSpec(Basename(p), '.');
  }

  /** `trimExt(p)`: `p` without its extension, for extensions of at most
      seven characters (upath's default limit). */
  function TrimExt(p: string): string {
    var e := Extname(p);
    if 0 < |e| <= 7 && |e| <= |p| then p[..|p| - |e|] else p
  }

  lemma TrimExtSpec(p: string)
    ensures 0 < |Extname(p)| <= 7 ==> TrimExt(p) + Extname(p) == p
    ensures !(0 < |Extname(p)| <= 7) ==> TrimExt(p) == p
  {
    BasenameSpec(p);
    var b := Basename(p);
    var e := Extname(p);
    if 0 < |e| <= 7 {
      ExtnameSpec(p);
      assert p[|p| - |b|..] == b;
      assert b[|b| - |e|..] == e;
      assert p[|p| - |e|..] == e;
      assert p[..|p| - |e|] + p[|p| - |e|..] == p;
    }
  }

  predicate IsUpper(c: char) {
    'A' <= c <= 'Z'
  }

  predicate IsWordChar(c: char) {
    'a' <= c <= 'z' || 'A' <= c <= 'Z' || '0' <= c <= '9' || c == '_'
  }

  function ToLower(c: char): char {
    if IsUpper(c) then (c as int + 32) as char else c
  }

  /** Where the regular expression `\B([A-Z])` matches: an upper-case
      letter that follows a word character. */
  predicate HyphenBefore(s: string, i: nat)
    requires i < |s|
  {
    IsUpper(s[i]) && 0 < i && IsWordChar(s[i - 1])
  }

  /** What `hyphenate` makes of the character at `i`: a `-` where the
      expression matches, then the character in lower case. */
  function HyphenatedAt(s: string, i: nat): string
    requires i < |s|
  {
    (if HyphenBefore(s, i) then "-" else "") + [ToLower(s[i])]
  }

  /** `hyphenate(s)` on ASCII letters: `fooBar` becomes `foo-bar`. */
  function Hyphenate(s: string): string {
    if |s| == 0 then []
    else Hyphenate(s[..|s| - 1]) + HyphenatedAt(s, |s| - 1)
  }

  /** `hyphenate` leaves no upper-case letter, never shortens its argument,
      and leaves a string without upper-case letters as it is. */
  lemma {:induction false} HyphenateSpec(s: string)
    ensures forall i :: 0 <= i < |Hyphenate(s)| ==> !IsUpper(Hyphenate(s)[i])
    ensures (forall i :: 0 <= i < |s| ==> !IsUpper(s[i])) ==> Hyphenate(s) == s
    ensures |s| <= |Hyphenate(s)|
    decreases |s|
  {
    if |s| > 0 {
      var init := s[..|s| - 1];
      HyphenateSpec(init);
      var h, t := Hyphenate(init), HyphenatedAt(s, |s| - 1);
      assert Hyphenate(s) == h + t;
      assert forall i :: 0 <= i < |t| ==> !IsUpper(t[i]);
      if forall i :: 0 <= i < |s| ==> !IsUpper(s[i]) {
        assert forall i :: 0 <= i < |init| ==> !IsUpper(init[i]);
        assert t == [s[|s| - 1]];
        assert init + [s[|s| - 1]] == s;
      }
    }
  }

  /** `s.replace(/\B([A-Z])/g, '-$1')`: a `-` is inserted before every
      match, and every character of `s` is kept. */
  function InsertHyphens(s: string): string {
    if |s| == 0 then []
    else InsertHyphens(s[..|s| - 1]) + (if HyphenBefore(s, |s| - 1) then "-" else "") + [s[|s| - 1]]
  }

  /** `toLowerCase()` on ASCII letters. */
  function LowerAll(s: string): string {
    seq(|s|, i requires 0 <= i < |s| => ToLower(s[i]))
  }

  /** `hyphenate` is the two steps of its definition: insert the hyphens,
      then lower-case the result. */
  lemma {:induction false} HyphenateReplacesThenLowers(s: string)
    ensures Hyphenate(s) == LowerAll(InsertHyphens(s))
    decreases |s|
  {
    if |s| > 0 {
      var init := s[..|s| - 1];
      HyphenateReplacesThenLowers(init);
      var a := InsertHyphens(init);
      var d: string := if HyphenBefore(s, |s| - 1) then "-" else "";
      var t := a + d + [s[|s| - 1]];
      assert InsertHyphens(s) == t;
      assert LowerAll(t) == LowerAll(a) + HyphenatedAt(s, |s| - 1);
    }
  }
}
