/**
 * Character and string helpers shared by the validators, the repository and the
 * search filters: Python's notion of whitespace (used by `str.strip` and by the
 * regular-expression class `\s`), ASCII and Unicode digits, lower-casing and substring search.
 */
module Text {

  /** `str.isspace()`: the characters Python treats as whitespace. */
  predicate IsSpace(c: char)
  {
    c == ' ' || ('\U{0009}' <= c <= '\U{000D}') || ('\U{001C}' <= c <= '\U{001F}')
    || c == '\U{0085}' || c == '\U{00A0}' || c == '\U{1680}' || ('\U{2000}' <= c <= '\U{200A}')
    || c == '\U{2028}' || c == '\U{2029}' || c == '\U{202F}' || c == '\U{205F}' || c == '\U{3000}'
  }

  predicate AllSpace(s: string)
  {
    forall i | 0 <= i < |s| :: IsSpace(s[i])
  }

  /** The regular-expression class `[0-9]`. */
  predicate IsDigit(c: char)
  {
    '0' <= c <= '9'
  }

  predicate AllDigits(s: string)
  {
    forall i | 0 <= i < |s| :: IsDigit(s[i])
  }

  /**
   * `str.isdigit()` on one character, as of Unicode 15.0: the characters whose numeric
   * type is Decimal or Digit. The first range is ASCII 0-9; the others hold, among
   * more, the superscripts ¹ ² ³, other scripts' decimal digits, the circled digits
   * and the full-width digits ０-９.
   */
  predicate IsUnicodeDigit(c: char)
  {
    ('\U{0030}' <= c <= '\U{0039}') || ('\U{00B2}' <= c <= '\U{00B3}') || c == '\U{00B9}'
    || ('\U{0660}' <= c <= '\U{0669}') || ('\U{06F0}' <= c <= '\U{06F9}')
    || ('\U{07C0}' <= c <= '\U{07C9}') || ('\U{0966}' <= c <= '\U{096F}')
    || ('\U{09E6}' <= c <= '\U{09EF}') || ('\U{0A66}' <= c <= '\U{0A6F}')
    || ('\U{0AE6}' <= c <= '\U{0AEF}') || ('\U{0B66}' <= c <= '\U{0B6F}')
    || ('\U{0BE6}' <= c <= '\U{0BEF}') || ('\U{0C66}' <= c <= '\U{0C6F}')
    || ('\U{0CE6}' <= c <= '\U{0CEF}') || ('\U{0D66}' <= c <= '\U{0D6F}')
    || ('\U{0DE6}' <= c <= '\U{0DEF}') || ('\U{0E50}' <= c <= '\U{0E59}')
    || ('\U{0ED0}' <= c <= '\U{0ED9}') || ('\U{0F20}' <= c <= '\U{0F29}')
    || ('\U{1040}' <= c <= '\U{1049}') || ('\U{1090}' <= c <= '\U{1099}')
    || ('\U{1369}' <= c <= '\U{1371}') || ('\U{17E0}' <= c <= '\U{17E9}')
    || ('\U{1810}' <= c <= '\U{1819}') || ('\U{1946}' <= c <= '\U{194F}')
    || ('\U{19D0}' <= c <= '\U{19DA}') || ('\U{1A80}' <= c <= '\U{1A89}')
    || ('\U{1A90}' <= c <= '\U{1A99}') || ('\U{1B50}' <= c <= '\U{1B59}')
    || ('\U{1BB0}' <= c <= '\U{1BB9}') || ('\U{1C40}' <= c <= '\U{1C49}')
    || ('\U{1C50}' <= c <= '\U{1C59}') || c == '\U{2070}' || ('\U{2074}' <= c <= '\U{2079}')
    || ('\U{2080}' <= c <= '\U{2089}') || ('\U{2460}' <= c <= '\U{2468}')
    || ('\U{2474}' <= c <= '\U{247C}') || ('\U{2488}' <= c <= '\U{2490}') || c == '\U{24EA}'
    || ('\U{24F5}' <= c <= '\U{24FD}') || c == '\U{24FF}' || ('\U{2776}' <= c <= '\U{277E}')
    || ('\U{2780}' <= c <= '\U{2788}') || ('\U{278A}' <= c <= '\U{2792}')
    || ('\U{A620}' <= c <= '\U{A629}') || ('\U{A8D0}' <= c <= '\U{A8D9}')
    || ('\U{A900}' <= c <= '\U{A909}') || ('\U{A9D0}' <= c <= '\U{A9D9}')
    || ('\U{A9F0}' <= c <= '\U{A9F9}') || ('\U{AA50}' <= c <= '\U{AA59}')
    || ('\U{ABF0}' <= c <= '\U{ABF9}') || ('\U{FF10}' <= c <= '\U{FF19}')
    || ('\U{104A0}' <= c <= '\U{104A9}') || ('\U{10A40}' <= c <= '\U{10A43}')
    || ('\U{10D30}' <= c <= '\U{10D39}') || ('\U{10E60}' <= c <= '\U{10E68}')
    || ('\U{11052}' <= c <= '\U{1105A}') || ('\U{11066}' <= c <= '\U{1106F}')
    || ('\U{110F0}' <= c <= '\U{110F9}') || ('\U{11136}' <= c <= '\U{1113F}')
    || ('\U{111D0}' <= c <= '\U{111D9}') || ('\U{112F0}' <= c <= '\U{112F9}')
    || ('\U{11450}' <= c <= '\U{11459}') || ('\U{114D0}' <= c <= '\U{114D9}')
    || ('\U{11650}' <= c <= '\U{11659}') || ('\U{116C0}' <= c <= '\U{116C9}')
    || ('\U{11730}' <= c <= '\U{11739}') || ('\U{118E0}' <= c <= '\U{118E9}')
    || ('\U{11950}' <= c <= '\U{11959}') || ('\U{11C50}' <= c <= '\U{11C59}')
    || ('\U{11D50}' <= c <= '\U{11D59}') || ('\U{11DA0}' <= c <= '\U{11DA9}')
    || ('\U{11F50}' <= c <= '\U{11F59}') || ('\U{16A60}' <= c <= '\U{16A69}')
    || ('\U{16AC0}' <= c <= '\U{16AC9}') || ('\U{16B50}' <= c <= '\U{16B59}')
    || ('\U{1D7CE}' <= c <= '\U{1D7FF}') || ('\U{1E140}' <= c <= '\U{1E149}')
    || ('\U{1E2F0}' <= c <= '\U{1E2F9}') || ('\U{1E4F0}' <= c <= '\U{1E4F9}')
    || ('\U{1E950}' <= c <= '\U{1E959}') || ('\U{1F100}' <= c <= '\U{1F10A}')
    || ('\U{1FBF0}' <= c <= '\U{1FBF9}')
  }

  /** `str.isdigit()` without the empty case: every character is a digit in the Unicode sense. */
  predicate AllUnicodeDigits(s: string)
  {
    forall i | 0 <= i < |s| :: IsUnicodeDigit(s[i])
  }

  function DigitValue(c: char): (d: int)
    requires IsDigit(c)
    ensures 0 <= d <= 9
  {
    c as int - '0' as int
  }

  /** The first position at or after `i` that does not hold whitespace: where `str.lstrip()` cuts. */
  function SpanStart(s: string, i: nat): (k: nat)
    requires i <= |s|
    ensures i <= k <= |s|
    ensures forall j :: i <= j < k ==> IsSpace(s[j])
    ensures k < |s| ==> !IsSpace(s[k])
    decreases |s| - i
  {
    if i == |s| || !IsSpace(s[i]) then i else SpanStart(s, i + 1)
  }

  /** The last position down from `j`, and not below `lo`, after a non-whitespace character: where `str.rstrip()` cuts. */
  function SpanEnd(s: string, lo: nat, j: nat): (k: nat)
    requires lo <= j <= |s|
    ensures lo <= k <= j
    ensures forall i :: k <= i < j ==> IsSpace(s[i])
    ensures k > lo ==> !IsSpace(s[k - 1])
    decreases j
  {
    if j == lo || !IsSpace(s[j - 1]) then j else SpanEnd(s, lo, j - 1)
  }

  /** Where the text left by `str.strip()` starts in `s`. */
  function StripStart(s: string): (k: nat)
    ensures k <= |s|
  {
    SpanStart(s, 0)
  }

  /**
   * `str.strip()`: the result is the slice of `s` left after cutting the leading
   * and the trailing whitespace; it is empty exactly when `s` is all whitespace.
   */
  function Strip(s: string): (r: string)
    ensures StripStart(s) + |r| <= |s| && r == s[StripStart(s)..StripStart(s) + |r|]
    ensures forall i :: 0 <= i < StripStart(s) ==> IsSpace(s[i])
    ensures forall i :: StripStart(s) + |r| <= i < |s| ==> IsSpace(s[i])
    ensures r == [] || (!IsSpace(r[0]) && !IsSpace(r[|r| - 1]))
    ensures r == [] <==> AllSpace(s)
  {
    var a := SpanStart(s, 0);
    var b := SpanEnd(s, a, |s|);
    assert b > a ==> s[a..b][b - a - 1] == s[b - 1];
    s[a..b]
  }

  /** Text made only of digits has nothing to strip. */
  lemma {:induction false} StripDigits(s: string)
    requires AllDigits(s)
    ensures Strip(s) == s
  {
    if s != [] {
      assert !IsSpace(s[0]) && !IsSpace(s[|s| - 1]);
    }
  }

  /** `re.sub(r'[^0-9]', '', s)`: keeps the digits of `s`, in order, so what is kept is digits only. */
  function KeepDigits(s: string): (r: string)
    ensures |r| <= |s|
    ensures AllDigits(r)
  {
    if s == [] then []
    else (if IsDigit(s[0]) then [s[0]] else []) + KeepDigits(s[1..])
  }

  /** A text of digits keeps all of them. */
  lemma {:induction false} KeepDigitsOfDigits(s: string)
    requires AllDigits(s)
    ensures KeepDigits(s) == s
  {
    if s != [] {
      KeepDigitsOfDigits(s[1..]);
    }
  }

  lemma {:induction false} KeepDigitsAppend(a: string, b: string)
    ensures KeepDigits(a + b) == KeepDigits(a) + KeepDigits(b)
  {
    if a != [] {
      assert (a + b)[1..] == a[1..] + b;
      KeepDigitsAppend(a[1..], b);
    } else {
      assert a + b == b;
    }
  }

  lemma {:induction false} KeepDigitsOfSpace(s: string)
    requires AllSpace(s)
    ensures KeepDigits(s) == []
  {
    if s != [] {
      KeepDigitsOfSpace(s[1..]);
    }
  }

  /** Stripping whitespace never changes which digits a text holds. */
  lemma KeepDigitsStrip(s: string)
    ensures KeepDigits(Strip(s)) == KeepDigits(s)
  {
    var mid := Strip(s);
    var a := StripStart(s);
    var b := a + |mid|;
    var pre, post := s[..a], s[b..];
    assert s == pre + mid + post;
    assert AllSpace(pre) by {
      assert forall i :: 0 <= i < a ==> pre[i] == s[i];
    }
    assert AllSpace(post) by {
      assert forall i :: 0 <= i < |post| ==> post[i] == s[b + i];
    }
    KeepDigitsOfSpace(pre);
    KeepDigitsOfSpace(post);
    KeepDigitsAppend(pre, mid);
    KeepDigitsAppend(pre + mid, post);
  }

  /** `s.replace(" ", "")`: drops every space character (U+0020 only). */
  function RemoveSpaces(s: string): (r: string)
    ensures |r| <= |s|
    ensures forall i | 0 <= i < |r| :: r[i] != ' ' && r[i] in s
    ensures forall i | 0 <= i < |s| && s[i] != ' ' :: s[i] in r
  {
    if s == [] then []
    else (if s[0] == ' ' then [] else [s[0]]) + RemoveSpaces(s[1..])
  }

  /** Removing spaces works character by character: the rest keeps its order and its repeats. */
  lemma {:induction false} RemoveSpacesConcat(a: string, b: string)
    ensures RemoveSpaces(a + b) == RemoveSpaces(a) + RemoveSpaces(b)
  {
    if a == [] {
      assert a + b == b;
    } else {
      assert (a + b)[0] == a[0];
      assert (a + b)[1..] == a[1..] + b;
      RemoveSpacesConcat(a[1..], b);
    }
  }

  /** Upper-case letters of ASCII and of the Latin-1 supplement (without U+00D7). */
  predicate IsUpper(c: char)
  {
    ('A' <= c <= 'Z') || ('\U{00C0}' <= c <= '\U{00DE}' && c != '\U{00D7}')
  }

  function LowerChar(c: char): (l: char)
    ensures !IsUpper(l)
    ensures !IsUpper(c) ==> l == c
  {
    if IsUpper(c) then (c as int + 32) as char else c
  }

  /** `str.lower()` on the ASCII and Latin-1 letters. */
  function Lower(s: string): (r: string)
    ensures |r| == |s|
    ensures forall i | 0 <= i < |s| :: r[i] == LowerChar(s[i])
  {
    if s == [] then [] else [LowerChar(s[0])] + Lower(s[1..])
  }

  /** A lower-cased text never holds an upper-case letter. */
  lemma LowerHasNoUpper(s: string, i: int)
    requires 0 <= i < |s|
    ensures !IsUpper(Lower(s)[i])
  {
  }

  predicate IsPrefix(p: string, s: string)
  {
    |p| <= |s| && s[..|p|] == p
  }

  /** `needle in haystack`: Python's substring test. The empty needle is in every text; a needle longer than the text is in none. */
  predicate Contains(haystack: string, needle: string): (found: bool)
    ensures needle == [] ==> found
    ensures found ==> |needle| <= |haystack|
    decreases |haystack|
  {
    IsPrefix(needle, haystack) || (haystack != [] && Contains(haystack[1..], needle))
  }

  /** A needle found at some offset of the haystack makes the substring test hold. */
  lemma {:induction false} ContainsAtOffset(haystack: string, needle: string, k: nat)
    requires k + |needle| <= |haystack| && haystack[k..k + |needle|] == needle
    ensures Contains(haystack, needle)
    decreases k
  {
    if k > 0 {
      assert haystack[1..][k - 1..k - 1 + |needle|] == needle;
      ContainsAtOffset(haystack[1..], needle, k - 1);
    }
  }

  /** Where the substring test found the needle. */
  function Offset(haystack: string, needle: string): (k: nat)
    requires Contains(haystack, needle)
    ensures k + |needle| <= |haystack| && haystack[k..k + |needle|] == needle
    decreases |haystack|
  {
    if IsPrefix(needle, haystack) then 0
    else
      var k := Offset(haystack[1..], needle);
      assert haystack[k + 1..k + 1 + |needle|] == haystack[1..][k..k + |needle|];
      k + 1
  }
}
