/**
 * Character-level string helpers shared by the server and the client model:
 * whitespace trimming (Python `str.strip`, JavaScript `trim`), JavaScript string length
 * in UTF-16 code units, ASCII lower-casing
 * (`lower()`, `toLowerCase()`), substring search (`in`, `includes`), splitting on
 * whitespace runs (`split(/\s+/)`), word runs (`match(/\b\w+\b/g)`) and decimal rendering.
 */
module Text {

  /**
   * The characters matched by `\s` in a JavaScript regular expression, which are also the
   * ones `String.prototype.trim` removes: the ECMAScript WhiteSpace characters (tab, vertical
   * tab, form feed, space, no-break space, the byte-order mark and the other Zs spaces) and
   * the LineTerminator characters (line feed, carriage return, U+2028 and U+2029).
   */
  predicate IsSpace(c: char) {
    || ('\t' <= c <= '\r') || c == ' ' || c == '\U{A0}' || c == '\U{1680}'
    || ('\U{2000}' <= c <= '\U{200A}') || c == '\U{2028}' || c == '\U{2029}'
    || c == '\U{202F}' || c == '\U{205F}' || c == '\U{3000}' || c == '\U{FEFF}'
  }

  /**
   * The characters Python's `str.strip()` removes, those for which `str.isspace()` holds:
   * besides the Zs spaces and the line and paragraph separators, the four information
   * separators U+001C to U+001F and U+0085, but not the byte-order mark.
   */
  predicate IsPySpace(c: char) {
    || ('\t' <= c <= '\r') || ('\U{1C}' <= c <= ' ') || c == '\U{85}' || c == '\U{A0}' || c == '\U{1680}'
    || ('\U{2000}' <= c <= '\U{200A}') || c == '\U{2028}' || c == '\U{2029}'
    || c == '\U{202F}' || c == '\U{205F}' || c == '\U{3000}'
  }

  /**
   * JavaScript `s.length`: the number of UTF-16 code units, two for a character outside the
   * Basic Multilingual Plane and one for every other.
   */
  function JsLength(s: string): (n: nat)
    ensures |s| <= n <= 2 * |s|
  {
    if s == [] then 0 else (if s[0] as int >= 0x1_0000 then 2 else 1) + JsLength(s[1..])
  }

  /** A string without characters outside the Basic Multilingual Plane has one code unit per character. */
  lemma {:induction false} JsLengthBmp(s: string)
    requires forall k :: 0 <= k < |s| ==> s[k] as int < 0x1_0000
    ensures JsLength(s) == |s|
  {
    if s != [] {
      JsLengthBmp(s[1..]);
    }
  }

  /** Characters outside the Basic Multilingual Plane count twice: three emoji make a length of six. */
  lemma JsLengthSurrogates()
    ensures JsLength("\U{1F600}\U{1F600}\U{1F600}") == 6
    ensures JsLength("abc") == 3
  {
    assert "\U{1F600}\U{1F600}\U{1F600}"[1..] == "\U{1F600}\U{1F600}";
    assert "\U{1F600}\U{1F600}"[1..] == "\U{1F600}";
    assert "abc"[1..] == "bc" && "bc"[1..] == "c";
  }

  /** The characters matched by `\w` in a JavaScript regular expression. */
  predicate IsWordChar(c: char) {
    ('a' <= c <= 'z') || ('A' <= c <= 'Z') || ('0' <= c <= '9') || c == '_'
  }

  predicate IsUpper(c: char) { 'A' <= c <= 'Z' }

  predicate IsDigit(c: char) { '0' <= c <= '9' }

  function LowerChar(c: char): (r: char)
    ensures !IsUpper(r)
    ensures IsUpper(c) ==> r as int == c as int + 32
    ensures !IsUpper(c) ==> r == c
  {
    if IsUpper(c) then (c as int + 32) as char else c
  }

  /** ASCII lower-casing, character by character. */
  function Lower(s: string): (r: string)
    ensures |r| == |s|
    ensures forall i :: 0 <= i < |s| ==> r[i] == LowerChar(s[i])
  {
    if s == [] then [] else [LowerChar(s[0])] + Lower(s[1..])
  }

  lemma {:induction false} LowerIdempotent(s: string)
    ensures Lower(Lower(s)) == Lower(s)
  {
    var once := Lower(s);
    var twice := Lower(once);
    assert forall i :: 0 <= i < |s| ==> twice[i] == once[i];
  }

  /** The leading characters that satisfy `sp` removed. */
  function TrimStart(s: string, sp: char -> bool): (r: string)
    ensures |r| <= |s| && r == s[|s| - |r|..]
    ensures r == [] || !sp(r[0])
    ensures forall i :: 0 <= i < |s| - |r| ==> sp(s[i])
  {
    if s != [] && sp(s[0]) then TrimStart(s[1..], sp) else s
  }

  /** The trailing characters that satisfy `sp` removed. */
  function TrimEnd(s: string, sp: char -> bool): (r: string)
    ensures |r| <= |s| && r == s[..|r|]
    ensures r == [] || !sp(r[|r| - 1])
    ensures forall i :: |r| <= i < |s| ==> sp(s[i])
  {
    if s != [] && sp(s[|s| - 1]) then TrimEnd(s[..|s| - 1], sp) else s
  }

  /** The characters that satisfy `sp` removed from both ends. */
  function TrimBy(s: string, sp: char -> bool): (r: string)
    ensures |r| <= |s|
    ensures r == [] || (!sp(r[0]) && !sp(r[|r| - 1]))
  {
    TrimEnd(TrimStart(s, sp), sp)
  }

  /** JavaScript `String.prototype.trim()`. */
  function Trim(s: string): (r: string)
    ensures |r| <= |s|
    ensures r == [] || (!IsSpace(r[0]) && !IsSpace(r[|r| - 1]))
  {
    TrimBy(s, IsSpace)
  }

  /** Python `str.strip()` without arguments. */
  function Strip(s: string): (r: string)
    ensures |r| <= |s|
    ensures r == [] || (!IsPySpace(r[0]) && !IsPySpace(r[|r| - 1]))
  {
    TrimBy(s, IsPySpace)
  }

  /** The trimmed text is a contiguous slice and everything cut away satisfies `sp`. */
  lemma TrimIsSlice(s: string, sp: char -> bool) returns (lo: nat, hi: nat)
    ensures lo <= hi <= |s| && TrimBy(s, sp) == s[lo..hi]
    ensures forall i :: 0 <= i < lo ==> sp(s[i])
    ensures forall i :: hi <= i < |s| ==> sp(s[i])
  {
    var t := TrimStart(s, sp);
    var u := TrimEnd(t, sp);
    lo := |s| - |t|;
    hi := lo + |u|;
    assert t == s[lo..];
    assert u == t[..|u|];
    assert u == s[lo..hi];
    forall i | hi <= i < |s| ensures sp(s[i]) {
      assert s[i] == t[i - lo];
    }
  }

  /** A string trims to the empty string exactly when every character satisfies `sp`. */
  lemma TrimEmptyIffBlank(s: string, sp: char -> bool)
    ensures TrimBy(s, sp) == [] <==> forall i :: 0 <= i < |s| ==> sp(s[i])
  {
    var lo, hi := TrimIsSlice(s, sp);
    if TrimBy(s, sp) != [] {
      assert !sp(s[lo]);
    }
  }

  /** A no-break space is white space to both languages: `trim` and `strip` remove it. */
  lemma NoBreakSpaceTrimmed()
    ensures Trim("\U{A0}") == "" && Strip("\U{A0}") == ""
  {
    TrimEmptyIffBlank("\U{A0}", IsSpace);
    TrimEmptyIffBlank("\U{A0}", IsPySpace);
  }

  /** U+0085 is white space to Python's `strip` but not to JavaScript's `trim`. */
  lemma NextLineStripped()
    ensures Strip("\U{85}x") == "x" && Trim("\U{85}x") == "\U{85}x"
  {
    assert TrimStart("\U{85}x", IsPySpace) == "x" by {
      assert "\U{85}x"[1..] == "x";
    }
  }

  /** `needle` occurs as a contiguous substring of `hay` (Python `in`, JavaScript `includes`). */
  predicate Contains(hay: string, needle: string)
    decreases |hay|
  {
    needle <= hay || (hay != [] && Contains(hay[1..], needle))
  }

  lemma ContainsEmpty(hay: string)
    ensures Contains(hay, [])
  {
  }

  /** A string that contains `needle` is at least as long as it. */
  lemma {:induction false} ContainsLength(hay: string, needle: string)
    requires Contains(hay, needle)
    ensures |needle| <= |hay|
    decreases |hay|
  {
    if !(needle <= hay) {
      ContainsLength(hay[1..], needle);
    }
  }

  /** A string contains every piece it is built from. */
  lemma {:induction false} ContainsInfix(a: string, b: string, c: string)
    ensures Contains(a + b + c, b)
    decreases |a|
  {
    if a == [] {
      assert a + b + c == b + c;
    } else {
      assert (a + b + c)[1..] == a[1..] + b + c;
      ContainsInfix(a[1..], b, c);
    }
  }

  /** `s[i..]` begins with a run of `sp` characters of length `SpaceRun(s, i, sp) - i`. */
  function SpaceRun(s: string, i: nat, sp: char -> bool): (j: nat)
    requires i <= |s|
    ensures i <= j <= |s|
    ensures j == |s| || !sp(s[j])
    ensures forall k :: i <= k < j ==> sp(s[k])
    decreases |s| - i
  {
    if i < |s| && sp(s[i]) then SpaceRun(s, i + 1, sp) else i
  }

  /** Index of the first `sp` character at or after `i`, or `|s|`. */
  function NextSpace(s: string, i: nat, sp: char -> bool): (j: nat)
    requires i <= |s|
    ensures i <= j <= |s|
    ensures j < |s| ==> sp(s[j])
    ensures forall k :: i <= k < j ==> !sp(s[k])
    decreases |s| - i
  {
    if i == |s| || sp(s[i]) then i else NextSpace(s, i + 1, sp)
  }

  /**
   * The fields between maximal runs of `sp` characters, keeping an empty first field when
   * `s` starts with such a run and an empty last field when it ends with one.
   */
  function SplitBy(s: string, sp: char -> bool): (fields: seq<string>)
    ensures |fields| >= 1
    ensures forall f, k :: f in fields && 0 <= k < |f| ==> !sp(f[k])
    decreases |s|
  {
    var i := NextSpace(s, 0, sp);
    if i == |s| then [s]
    else
      var j := SpaceRun(s, i, sp);
      [s[..i]] + SplitBy(s[j..], sp)
  }

  /** JavaScript `s.split(/\s+/)`; `""` splits to `[""]`. */
  function SplitOnSpaces(s: string): (fields: seq<string>)
    ensures |fields| >= 1
    ensures forall f, k :: f in fields && 0 <= k < |f| ==> !IsSpace(f[k])
  {
    SplitBy(s, IsSpace)
  }

  /** A word of `s` starts at `k`: a character outside `sp`, first in `s` or after a character in `sp`. */
  predicate WordStartAt(s: string, k: nat, sp: char -> bool)
    requires k < |s|
  {
    !sp(s[k]) && (k == 0 || sp(s[k - 1]))
  }

  /** The number of words that start among the first `n` characters of `s`. */
  function WordStarts(s: string, n: nat, sp: char -> bool): nat
    requires n <= |s|
  {
    if n == 0 then 0 else WordStarts(s, n - 1, sp) + (if WordStartAt(s, n - 1, sp) then 1 else 0)
  }

  /** No word starts exactly when every character is in `sp`. */
  lemma {:induction false} NoWordStarts(s: string, n: nat, sp: char -> bool)
    requires n <= |s|
    ensures WordStarts(s, n, sp) == 0 <==> forall k :: 0 <= k < n ==> sp(s[k])
  {
    if n > 0 {
      NoWordStarts(s, n - 1, sp);
    }
  }

  /** Past a cut that follows a character in `sp`, the words are those of the rest. */
  lemma {:induction false} WordStartsAppend(s: string, j: nat, m: nat, sp: char -> bool)
    requires j + m <= |s|
    requires j == 0 || sp(s[j - 1])
    ensures WordStarts(s, j + m, sp) == WordStarts(s, j, sp) + WordStarts(s[j..], m, sp)
  {
    if m > 0 {
      WordStartsAppend(s, j, m - 1, sp);
      assert WordStartAt(s, j + m - 1, sp) == WordStartAt(s[j..], m - 1, sp);
    }
  }

  /** Characters outside `sp`, `s[..i]`, then characters in `sp` up to `j`: one word, none when `i` is 0. */
  lemma {:induction false} LeadingWordStarts(s: string, i: nat, j: nat, n: nat, sp: char -> bool)
    requires i <= j <= |s| && n <= j
    requires forall k :: 0 <= k < i ==> !sp(s[k])
    requires forall k :: i <= k < j ==> sp(s[k])
    ensures WordStarts(s, n, sp) == if 0 < n && 0 < i then 1 else 0
  {
    if n > 0 {
      LeadingWordStarts(s, i, j, n - 1, sp);
    }
  }

  /** Index of the first word character at or after `i`, or `|s|` when there is none. */
  function SkipNonWord(s: string, i: nat): (j: nat)
    requires i <= |s|
    ensures i <= j <= |s|
    ensures j == |s| || IsWordChar(s[j])
    ensures forall k :: i <= k < j ==> !IsWordChar(s[k])
    decreases |s| - i
  {
    if i < |s| && !IsWordChar(s[i]) then SkipNonWord(s, i + 1) else i
  }

  /** Index just past the run of word characters that starts at `i`. */
  function WordEnd(s: string, i: nat): (j: nat)
    requires i <= |s|
    ensures i <= j <= |s|
    ensures j == |s| || !IsWordChar(s[j])
    ensures forall k :: i <= k < j ==> IsWordChar(s[k])
    decreases |s| - i
  {
    if i < |s| && IsWordChar(s[i]) then WordEnd(s, i + 1) else i
  }

  /**
   * JavaScript `s.match(/\b\w+\b/g) || []`: the maximal runs of word characters, in order.
   */
  function WordRuns(s: string): seq<string>
    decreases |s|
  {
    var start := SkipNonWord(s, 0);
    if start == |s| then []
    else
      var stop := WordEnd(s, start);
      [s[start..stop]] + WordRuns(s[stop..])
  }

  /** Every word run is a non-empty string of word characters. */
  lemma {:induction false} WordRunsAreWords(s: string)
    ensures forall w :: w in WordRuns(s) ==> |w| > 0 && forall k :: 0 <= k < |w| ==> IsWordChar(w[k])
    decreases |s|
  {
    var start := SkipNonWord(s, 0);
    if start < |s| {
      var stop := WordEnd(s, start);
      WordRunsAreWords(s[stop..]);
    }
  }

  /** JavaScript `s.replace(/[^...]/g, "")`: the characters satisfying `keep`, in order. */
  function KeepChars(s: string, keep: char -> bool): (r: string)
    ensures |r| <= |s|
    ensures forall k :: 0 <= k < |r| ==> keep(r[k])
  {
    if s == [] then []
    else (if keep(s[0]) then [s[0]] else []) + KeepChars(s[1..], keep)
  }

  /** A property of every character of `s` holds of every character of every field of its split. */
  lemma SplitFieldsChars(s: string, ok: char -> bool)
    requires forall k :: 0 <= k < |s| ==> ok(s[k])
    ensures forall f, k :: f in SplitOnSpaces(s) && 0 <= k < |f| ==> ok(f[k])
  {
    SplitByChars(s, IsSpace, ok);
  }

  lemma {:induction false} SplitByChars(s: string, sp: char -> bool, ok: char -> bool)
    requires forall k :: 0 <= k < |s| ==> ok(s[k])
    ensures forall f, k :: f in SplitBy(s, sp) && 0 <= k < |f| ==> ok(f[k])
    decreases |s|
  {
    var i := NextSpace(s, 0, sp);
    if i < |s| {
      var j := SpaceRun(s, i, sp);
      SplitByChars(s[j..], sp, ok);
      assert SplitBy(s, sp) == [s[..i]] + SplitBy(s[j..], sp);
    }
  }

  /** After lower-casing and removing the characters outside `keep`, no upper-case letter is left. */
  lemma {:induction false} KeepCharsLower(s: string, keep: char -> bool)
    ensures forall k :: 0 <= k < |KeepChars(Lower(s), keep)| ==> !IsUpper(KeepChars(Lower(s), keep)[k])
  {
    KeepCharsFrom(Lower(s), keep, c => !IsUpper(c));
  }

  lemma {:induction false} KeepCharsFrom(s: string, keep: char -> bool, ok: char -> bool)
    requires forall k :: 0 <= k < |s| ==> ok(s[k])
    ensures forall k :: 0 <= k < |KeepChars(s, keep)| ==> ok(KeepChars(s, keep)[k])
  {
    if s != [] {
      KeepCharsFrom(s[1..], keep, ok);
    }
  }

  function DigitChar(d: nat): (c: char)
    requires d < 10
    ensures IsDigit(c)
  {
    ('0' as int + d) as char
  }

  /** `split(/\s+/)` separates words at a no-break space. */
  lemma NoBreakSpaceSplits()
    ensures SplitOnSpaces("a\U{A0}b") == ["a", "b"]
  {
    var s := "a\U{A0}b";
    assert NextSpace(s, 1, IsSpace) == 1;
    assert NextSpace(s, 0, IsSpace) == 1;
    assert SpaceRun(s, 2, IsSpace) == 2;
    assert SpaceRun(s, 1, IsSpace) == 2;
    assert s[2..] == "b" && s[..1] == "a";
    assert NextSpace("b", 1, IsSpace) == 1;
    assert NextSpace("b", 0, IsSpace) == 1;
    assert SplitBy("b", IsSpace) == ["b"];
  }


  /** Decimal rendering of a natural number, as JavaScript template strings print it. */
  function NatToString(n: nat): (r: string)
    ensures |r| >= 1
    ensures forall k :: 0 <= k < |r| ==> IsDigit(r[k])
  {
    if n < 10 then [DigitChar(n)] else NatToString(n / 10) + [DigitChar(n % 10)]
  }

  /** Joins with a single space, as `Array.prototype.join(' ')`. */
  function JoinWithSpace(parts: seq<string>): string {
    if parts == [] then []
    else if |parts| == 1 then parts[0]
    else parts[0] + " " + JoinWithSpace(parts[1..])
  }
}
