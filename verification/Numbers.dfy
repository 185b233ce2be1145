/** Numbers as text: the rendering of eval/gate.py, and the scanner and parser of
    eval/normalize.py. Amounts are exact: reals, or whole cents. */
module Numbers {

  import opened Basics

  // ----- Characters and strings -----

  predicate IsDigit(c: char) { '0' <= c <= '9' }

  predicate IsDigitOrComma(c: char) { IsDigit(c) || c == ',' }

  predicate IsZero(c: char) { c == '0' }

  predicate IsPoint(c: char) { c == '.' }

  /** ASCII whitespace, as `str.strip` takes it. */
  predicate IsSpace(c: char) { c == ' ' || '\t' <= c <= '\r' || '\U{1c}' <= c <= '\U{1f}' }

  predicate IsLetter(c: char) { 'a' <= c <= 'z' || 'A' <= c <= 'Z' }

  predicate IsWordChar(c: char) { IsLetter(c) || IsDigit(c) || c == '_' }

  predicate All(s: string, p: char -> bool) {
    forall i :: 0 <= i < |s| ==> p(s[i])
  }

  function LowerChar(c: char): char {
    if 'A' <= c <= 'Z' then c - 'A' + 'a' else c
  }

  function Lower(s: string): (t: string)
    ensures |t| == |s| && forall i :: 0 <= i < |s| ==> t[i] == LowerChar(s[i])
  {
    if s == "" then "" else [LowerChar(s[0])] + Lower(s[1..])
  }

  function StripLeft(s: string, p: char -> bool): string {
    if s != "" && p(s[0]) then StripLeft(s[1..], p) else s
  }

  function StripRight(s: string, p: char -> bool): string {
    if s != "" && p(s[|s| - 1]) then StripRight(s[..|s| - 1], p) else s
  }

  function Strip(s: string): string {
    StripRight(StripLeft(s, IsSpace), IsSpace)
  }

  function Remove(s: string, c: char): string {
    if s == "" then "" else (if s[0] == c then "" else [s[0]]) + Remove(s[1..], c)
  }

  /** The length of the longest prefix of characters that satisfy p. */
  function RunLength(s: string, p: char -> bool): (n: nat)
    ensures n <= |s| && All(s[..n], p) && (n < |s| ==> !p(s[n]))
  {
    if s != "" && p(s[0]) then
      var n := 1 + RunLength(s[1..], p);
      assert forall i :: 1 <= i < n ==> s[i] == s[1..][..n - 1][i - 1];
      n
    else 0
  }

  // ----- Rendering -----

  function DigitChar(d: nat): (c: char)
    requires d < 10
    ensures IsDigit(c)
  {
    '0' + d as char
  }

  function Digits(n: nat): (s: string)
    ensures s != "" && All(s, IsDigit)
  {
    if n < 10 then [DigitChar(n)] else Digits(n / 10) + [DigitChar(n % 10)]
  }

  /** A comma before every third digit from the right. */
  function Group(s: string): string {
    if |s| <= 3 then s else Group(s[..|s| - 3]) + "," + s[|s| - 3..]
  }

  function Abs(c: int): nat { if c < 0 then -c else c }

  /** The amount of c cents. */
  function Amount(c: int): real { c as real / 100.0 }

  /** `f"{v:,.2f}"`, with or without the commas, of c cents. */
  function Fixed2(c: int, grouped: bool): string {
    var whole, cents := Digits(Abs(c) / 100), Abs(c) % 100;
    (if c < 0 then "-" else "") + (if grouped then Group(whole) else whole)
    + "." + [DigitChar(cents / 10), DigitChar(cents % 10)]
  }

  /** `.rstrip("0").rstrip(".")` of it. */
  function Render(c: int, grouped: bool): string {
    StripRight(StripRight(Fixed2(c, grouped), IsZero), IsPoint)
  }

  // ----- Scanning and parsing -----

  /** The length of `\.?\d*\)?` at the start of s. */
  function FractionLength(s: string): (m: nat)
    ensures m <= |s|
  {
    var point := if s != "" && s[0] == '.' then 1 else 0;
    var end := point + RunLength(s[point..], IsDigit);
    if end < |s| && s[end] == ')' then end + 1 else end
  }

  /** The length of `\d[\d,]*\.?\d*\)?` at the start of s, or 0. */
  function UnsignedLength(s: string): (m: nat)
    ensures m <= |s|
    ensures m > 0 ==> IsDigit(s[0])
  {
    if s != "" && IsDigit(s[0]) then
      var whole := RunLength(s, IsDigitOrComma);
      whole + FractionLength(s[whole..])
    else 0
  }

  /** The length of `-?\(?` at the start of s. */
  function OpeningLength(s: string): (m: nat)
    ensures m <= |s|
  {
    var sign := if s != "" && s[0] == '-' then 1 else 0;
    if sign < |s| && s[sign] == '(' then sign + 1 else sign
  }

  /** The length of the match of `-?\(?\d[\d,]*\.?\d*\)?` at the start of s, or 0. Every
      optional part is followed by a part that excludes it, so no match backtracks. */
  function MatchLength(s: string): (m: nat)
    ensures m <= |s|
    ensures m > 0 ==> exists k :: 0 <= k < m && IsDigit(s[k])
  {
    var opening := OpeningLength(s);
    var unsigned := UnsignedLength(s[opening..]);
    if unsigned > 0 then
      assert IsDigit(s[opening]);
      opening + unsigned
    else 0
  }

  function FindAll(s: string): seq<string>
    decreases |s|
  {
    if s == "" then []
    else
      var m := MatchLength(s);
      if m > 0 then [s[..m]] + FindAll(s[m..]) else FindAll(s[1..])
  }

  function DigitValue(c: char): nat
    requires IsDigit(c)
  {
    (c - '0') as nat
  }

  function NatValue(s: string): nat
    requires All(s, IsDigit)
  {
    if s == "" then 0 else 10 * NatValue(s[..|s| - 1]) + DigitValue(s[|s| - 1])
  }

  function Pow10(k: nat): (p: nat)
    ensures p > 0
  {
    if k == 0 then 1 else 10 * Pow10(k - 1)
  }

  function DecimalValue(whole: string, frac: string): real
    requires All(whole, IsDigit) && All(frac, IsDigit)
  {
    NatValue(whole) as real + NatValue(frac) as real / Pow10(|frac|) as real
  }

  /** Digits, then perhaps a point and digits. */
  function ParseUnsigned(t: string): Option<real> {
    var whole := RunLength(t, IsDigit);
    var frac := if whole < |t| then t[whole + 1..] else "";
    if whole == 0 || (whole < |t| && t[whole] != '.') || !All(frac, IsDigit) then None
    else Some(DecimalValue(t[..whole], frac))
  }

  function Negated(o: Option<real>): Option<real> {
    if o.None? then None else Some(-o.value)
  }

  /** `float` on the text that the scanner leaves. */
  function ParseFloat(s: string): Option<real> {
    if s != "" && s[0] == '-' then Negated(ParseUnsigned(s[1..])) else ParseUnsigned(s)
  }

  // ----- Scale words -----

  const SCALE_WORDS: seq<(string, real)> := [
    ("thousand", 1000.0), ("thousands", 1000.0),
    ("million", 1000000.0), ("millions", 1000000.0), ("mm", 1000000.0),
    ("billion", 1000000000.0), ("billions", 1000000000.0), ("bn", 1000000000.0),
    ("trillion", 1000000000000.0), ("trillions", 1000000000000.0)]

  predicate WordAt(word: string, s: string, i: nat) {
    && i + |word| <= |s| && s[i..i + |word|] == word
    && (i > 0 ==> !IsWordChar(s[i - 1]))
    && (i + |word| < |s| ==> !IsWordChar(s[i + |word|]))
  }

  /** `re.search(rf"\b{word}\b", s)` for a word of letters. */
  predicate ContainsWord(word: string, s: string) {
    exists i :: 0 <= i < |s| && WordAt(word, s, i)
  }

  /** The multiplier of the first scale word, in table order, that s contains. */
  function ScaleFrom(s: string, k: nat): (scale: real)
    requires k <= |SCALE_WORDS|
    ensures scale >= 1.0
    decreases |SCALE_WORDS| - k
  {
    if k == |SCALE_WORDS| then 1.0
    else if ContainsWord(SCALE_WORDS[k].0, s) then SCALE_WORDS[k].1
    else ScaleFrom(s, k + 1)
  }

  function ScaleOf(s: string): (scale: real)
    ensures scale >= 1.0
  {
    ScaleFrom(s, 0)
  }

  /** `scale_multiplier`: a missing or unknown scale is 1. */
  function ScaleMultiplier(scale: Option<string>): (multiplier: real)
    ensures multiplier >= 1.0
  {
    if scale.None? || scale.value == "" then 1.0 else ScaleOf(Lower(Strip(scale.value)))
  }

  // ----- normalize_numeric_answer -----

  datatype NormalizedNumber = NormalizedNumber(value: real, isPercent: bool)

  predicate IsParen(c: char) { c == '(' || c == ')' }

  /** The number that one match denotes. */
  function MatchValue(raw: string): Option<real> {
    var negative := raw != "" && raw[0] == '(' && raw[|raw| - 1] == ')';
    var parsed := ParseFloat(Remove(StripRight(StripLeft(raw, IsParen), IsParen), ','));
    if negative then Negated(parsed) else parsed
  }

  /** A percentage is not scaled. */
  function Scaled(value: real, isPercent: bool, scale: real): real {
    if isPercent then value else value * scale
  }

  /** One match is a number; none, or more than one, is not gradable. */
  function Grade(matches: seq<string>, isPercent: bool, scale: real): Option<NormalizedNumber> {
    if |matches| != 1 then None
    else
      var parsed := MatchValue(matches[0]);
      if parsed.None? then None
      else Some(NormalizedNumber(Scaled(parsed.value, isPercent, scale), isPercent))
  }

  function Normalize(text: string): Option<NormalizedNumber> {
    var s := Strip(text);
    Grade(FindAll(s), '%' in s, ScaleOf(Lower(s)))
  }

  lemma NothingToNormalize()
    ensures Normalize("") == None
  {
    assert Strip("") == "";
  }

  method FindScale(lowered: string, words: seq<(string, real)>) returns (scale: real)
    requires words == SCALE_WORDS
    ensures scale == ScaleOf(lowered)
  {
    for k := 0 to |words|
      invariant ScaleOf(lowered) == ScaleFrom(lowered, k)
    {
      if ContainsWord(words[k].0, lowered) {
        return words[k].1;
      }
    }
    return 1.0;
  }

  method NormalizeNumericAnswer(text: string) returns (r: Option<NormalizedNumber>)
    ensures r == Normalize(text)
  {
    if text == "" {
      NothingToNormalize();
      return None;
    }
    var stripped := Strip(text);
    var isPercent := '%' in stripped;
    var scale := FindScale(Lower(stripped), SCALE_WORDS);
    var matches := FindAll(stripped);
    r := ReadMatch(matches, isPercent, scale);
  }

  method ReadMatch(matches: seq<string>, isPercent: bool, scale: real) returns (r: Option<NormalizedNumber>)
    ensures r == Grade(matches, isPercent, scale)
  {
    if |matches| != 1 {
      return None;
    }
    var parsed := MatchValue(matches[0]);
    if parsed.None? {
      return None;
    }
    return Some(NormalizedNumber(Scaled(parsed.value, isPercent, scale), isPercent));
  }

  // ----- numbers_match -----

  function Larger(a: real, b: real): real {
    MaxReal(MaxReal(AbsReal(a), AbsReal(b)), 0.000000001)
  }

  predicate NumbersMatch(a: real, b: real) {
    a == b || AbsReal(a - b) / Larger(a, b) <= 0.01
  }

  lemma MatchIsWithinLarger(a: real, b: real)
    ensures NumbersMatch(a, b) <==> AbsReal(a - b) <= 0.01 * Larger(a, b)
    ensures NumbersMatch(a, b) <==> NumbersMatch(b, a)
  {
    var d, m := AbsReal(a - b), Larger(a, b);
    assert Larger(b, a) == m && AbsReal(b - a) == d;
    assert d / m * m == d;
  }

  /** The two are within one percent of one of them, whichever is which, or both are next
      to nothing. */
  lemma MatchIsWithinOnePercent(a: real, b: real)
    ensures NumbersMatch(a, b) <==>
            || AbsReal(a - b) <= 0.01 * AbsReal(a)
            || AbsReal(a - b) <= 0.01 * AbsReal(b)
            || AbsReal(a - b) <= 0.00000000001
    ensures NumbersMatch(a, b) <==> NumbersMatch(b, a)
  {
    MatchIsWithinLarger(a, b);
  }
}
