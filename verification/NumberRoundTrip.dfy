/** The renderer of the grounding gate and the parser of eval/normalize.py undo each other. */
module NumberRoundTrip {
  import opened Numbers
  import opened Basics

  // ----- The shape of a rendering -----

  function Sign(c: int): string { if c < 0 then "-" else "" }

  function Whole(c: int, grouped: bool): string {
    var whole := Digits(Abs(c) / 100);
    if grouped then Group(whole) else whole
  }

  /** The point and the cents, without trailing zeros; nothing for a whole amount. */
  function Fraction(c: int): string {
    ShownCents(DigitChar(Abs(c) % 100 / 10), DigitChar(Abs(c) % 100 % 10))
  }

  lemma StripNone(s: string, p: char -> bool)
    requires s == "" || !p(s[|s| - 1])
    ensures StripRight(s, p) == s
  {}

  lemma StripOne(s: string, c: char, p: char -> bool)
    requires p(c)
    ensures StripRight(s + [c], p) == StripRight(s, p)
  {
    assert (s + [c])[..|s|] == s;
  }

  /** The point and the cents as two characters, less trailing zeros. */
  function ShownCents(a: char, b: char): string {
    if b != '0' then "." + [a, b] else if a != '0' then "." + [a] else ""
  }

  lemma StripPoint(head: string)
    requires head != "" && head[|head| - 1] != '.'
    ensures StripRight(StripRight(head + ['.'], IsZero), IsPoint) == head
  {
    StripNone(head + ['.'], IsZero);
    StripOne(head, '.', IsPoint);
    StripNone(head, IsPoint);
  }

  lemma StripNothing(s: string, b: char)
    requires IsDigit(b) && b != '0'
    ensures StripRight(StripRight(s + [b], IsZero), IsPoint) == s + [b]
  {
    StripNone(s + [b], IsZero);
    StripNone(s + [b], IsPoint);
  }

  lemma StripCents(head: string, a: char, b: char)
    requires head != "" && head[|head| - 1] != '.' && IsDigit(a) && IsDigit(b)
    ensures StripRight(StripRight(head + "." + [a, b], IsZero), IsPoint) == head + ShownCents(a, b)
  {
    var pointed := head + ['.'];
    assert head + "." + [a, b] == pointed + [a] + [b];
    Unpointed(head, a, b);
    if b != '0' {
      StripNothing(pointed + [a], b);
    } else {
      StripOne(pointed + [a], b, IsZero);
      if a != '0' {
        StripNothing(pointed, a);
      } else {
        StripOne(pointed, a, IsZero);
        StripPoint(head);
      }
    }
  }

  lemma Unpointed(head: string, a: char, b: char)
    ensures head + ['.'] + [a] + [b] == head + ("." + [a, b])
    ensures head + ['.'] + [a] == head + ("." + [a])
    ensures head + "" == head
  {}

  lemma RenderShape(c: int, grouped: bool)
    ensures Render(c, grouped) == Sign(c) + Whole(c, grouped) + Fraction(c)
  {
    WholeShape(c, grouped);
    StripCents(Sign(c) + Whole(c, grouped), DigitChar(Abs(c) % 100 / 10), DigitChar(Abs(c) % 100 % 10));
  }

  lemma {:induction false} RemoveAppend(s: string, t: string, c: char)
    ensures Remove(s + t, c) == Remove(s, c) + Remove(t, c)
  {
    if s == "" {
      assert s + t == t;
    } else {
      assert (s + t)[1..] == s[1..] + t;
      RemoveAppend(s[1..], t, c);
    }
  }

  lemma {:induction false} RemoveNothing(s: string, c: char)
    requires c !in s
    ensures Remove(s, c) == s
  {
    if s == "" {
    } else {
      RemoveNothing(s[1..], c);
      assert [s[0]] + s[1..] == s;
    }
  }

  predicate IsNumeral(s: string) {
    s != "" && IsDigit(s[0]) && IsDigit(s[|s| - 1]) && All(s, IsDigitOrComma)
  }

  lemma JoinedNumeral(head: string, tail: string)
    requires IsNumeral(head) && |tail| == 3 && All(tail, IsDigit)
    ensures IsNumeral(head + "," + tail)
  {
    var g := head + "," + tail;
    assert g[0] == head[0] && g[|g| - 1] == tail[2];
    forall i | 0 <= i < |g| ensures IsDigitOrComma(g[i]) {
      assert g[i] == if i < |head| then head[i] else if i == |head| then ',' else tail[i - |head| - 1];
    }
  }

  /** Grouped digits start and end with a digit, and lose nothing but the commas. */
  lemma {:induction false} GroupShape(s: string)
    requires s != "" && All(s, IsDigit)
    ensures IsNumeral(Group(s)) && Remove(Group(s), ',') == s
  {
    if |s| <= 3 {
      RemoveNothing(s, ',');
    } else {
      var head, tail := s[..|s| - 3], s[|s| - 3..];
      GroupShape(head);
      JoinedNumeral(Group(head), tail);
      RemoveNothing(tail, ',');
      RemoveAppend(Group(head) + ",", tail, ',');
      RemoveAppend(Group(head), ",", ',');
      assert Remove(Group(head) + "," + tail, ',') == head + Remove(",", ',') + tail;
      assert Remove(",", ',') == "";
      assert head + "" + tail == s;
    }
  }

  lemma WholeShape(c: int, grouped: bool)
    ensures IsNumeral(Whole(c, grouped)) && Remove(Whole(c, grouped), ',') == Digits(Abs(c) / 100)
  {
    var digits := Digits(Abs(c) / 100);
    if grouped {
      GroupShape(digits);
    } else {
      RemoveNothing(digits, ',');
    }
  }

  // ----- The scanner finds exactly the rendering -----

  lemma {:induction false} RunLengthIs(a: string, b: string, p: char -> bool)
    requires All(a, p) && (b == "" || !p(b[0]))
    ensures RunLength(a + b, p) == |a|
  {
    if a == "" {
      assert a + b == b;
    } else {
      assert (a + b)[1..] == a[1..] + b;
      RunLengthIs(a[1..], b, p);
    }
  }

  predicate IsFraction(s: string) {
    s == "" || (s[0] == '.' && All(s[1..], IsDigit))
  }

  /** What may follow a number without being taken for a part of it. */
  predicate Boundary(s: string) {
    s == "" || !(IsDigitOrComma(s[0]) || s[0] == '.' || s[0] == ')')
  }

  /** The end of a rendering: `fraction` and perhaps a closing parenthesis, then `rest`. */
  predicate IsEnd(fraction: string, close: string, rest: string) {
    IsFraction(fraction) && (close == ")" || (close == "" && Boundary(rest)))
  }

  lemma MatchFraction(fraction: string, close: string, rest: string)
    requires IsEnd(fraction, close, rest)
    ensures FractionLength(fraction + (close + rest)) == |fraction| + |close|
  {
    var s, after := fraction + (close + rest), close + rest;
    if fraction == "" {
      assert s == after;
      RunLengthIs("", after, IsDigit);
      assert "" + after == after && s[0..] == after;
    } else {
      RunLengthIs(fraction[1..], after, IsDigit);
      assert s[1..] == fraction[1..] + after;
    }
  }

  lemma MatchUnsigned(whole: string, fraction: string, close: string, rest: string)
    requires IsNumeral(whole) && IsEnd(fraction, close, rest)
    ensures UnsignedLength(whole + (fraction + (close + rest))) == |whole| + |fraction| + |close|
  {
    var after := fraction + (close + rest);
    RunLengthIs(whole, after, IsDigitOrComma);
    MatchFraction(fraction, close, rest);
    assert (whole + after)[|whole|..] == after;
  }

  lemma MatchOpened(opening: string, s: string)
    requires opening == "" || opening == "-" || opening == "("
    requires s != "" && IsDigit(s[0])
    ensures MatchLength(opening + s) == |opening| + UnsignedLength(s)
  {
    assert (opening + s)[|opening|..] == s;
    assert OpeningLength(opening + s) == |opening|;
  }

  lemma {:induction false} FindNothing(s: string)
    requires forall i :: 0 <= i < |s| ==> !IsDigit(s[i])
    ensures FindAll(s) == []
  {
    if s == "" {
    } else {
      FindNothing(s[1..]);
    }
  }

  /** A prefix that no number can start in. */
  predicate NumberFree(s: string) {
    && (forall i :: 0 <= i < |s| ==> !IsDigit(s[i]))
    && (s == "" || (s[|s| - 1] != '-' && s[|s| - 1] != '('))
  }

  lemma NoMatchHere(prefix: string, s: string)
    requires NumberFree(prefix) && prefix != ""
    ensures MatchLength(prefix + s) == 0
  {
    var t := prefix + s;
    assert t[0] == prefix[0];
    assert |prefix| > 1 ==> t[1] == prefix[1];
    assert |prefix| > 2 ==> t[2] == prefix[2];
  }

  lemma {:induction false} FindSkips(prefix: string, s: string)
    requires NumberFree(prefix)
    ensures FindAll(prefix + s) == FindAll(s)
  {
    if prefix == "" {
      assert prefix + s == s;
    } else {
      NoMatchHere(prefix, s);
      assert (prefix + s)[1..] == prefix[1..] + s;
      FindSkips(prefix[1..], s);
    }
  }

  /** A suffix without digits that does not continue a number. */
  predicate Tail(s: string) {
    Boundary(s) && forall i :: 0 <= i < |s| ==> !IsDigit(s[i])
  }

  lemma FindOne(number: string, suffix: string)
    requires number != "" && MatchLength(number + suffix) == |number| && Tail(suffix)
    ensures FindAll(number + suffix) == [number]
  {
    assert (number + suffix)[..|number|] == number && (number + suffix)[|number|..] == suffix;
    FindNothing(suffix);
  }

  lemma Reassociate(a: string, b: string, c: string, d: string, e: string)
    ensures a + b + c + d + e == a + (b + (c + (d + e)))
  {}

  lemma Parenthesise(w: string, f: string)
    ensures "(" + ("" + w + f) + ")" == "(" + w + f + ")"
  {}

  lemma MatchSigned(opening: string, whole: string, fraction: string, close: string, rest: string)
    requires opening == "" || opening == "-" || opening == "("
    requires IsNumeral(whole) && IsEnd(fraction, close, rest)
    ensures MatchLength(opening + whole + fraction + close + rest) == |opening + whole + fraction + close|
  {
    MatchUnsigned(whole, fraction, close, rest);
    Reassociate(opening, whole, fraction, close, rest);
    MatchOpened(opening, whole + (fraction + (close + rest)));
  }

  lemma MatchRendering(c: int, grouped: bool, rest: string)
    requires Boundary(rest)
    ensures MatchLength(Render(c, grouped) + rest) == |Render(c, grouped)|
  {
    RenderShape(c, grouped);
    WholeShape(c, grouped);
    var w, f := Whole(c, grouped), Fraction(c);
    MatchSigned(Sign(c), w, f, "", rest);
    assert Sign(c) + w + f + "" == Sign(c) + w + f;
  }

  lemma MatchParenthesised(c: nat, grouped: bool, rest: string)
    ensures MatchLength("(" + Render(c, grouped) + ")" + rest) == |"(" + Render(c, grouped) + ")"|
  {
    RenderShape(c, grouped);
    WholeShape(c, grouped);
    var w, f := Whole(c, grouped), Fraction(c);
    MatchSigned("(", w, f, ")", rest);
    Parenthesise(w, f);
  }

  // ----- The parser reads the amount back -----

  lemma {:induction false} ReadDigits(n: nat)
    ensures NatValue(Digits(n)) == n
  {
    if n < 10 {
    } else {
      ReadDigits(n / 10);
      assert Digits(n)[..|Digits(n)| - 1] == Digits(n / 10);
    }
  }

  /** The text after the point. */
  function Decimals(fraction: string): string {
    if fraction == "" then "" else fraction[1..]
  }

  lemma ReadCents(cents: nat)
    requires cents < 100
    ensures var d := Decimals(ShownCents(DigitChar(cents / 10), DigitChar(cents % 10)));
            All(d, IsDigit) && NatValue(d) as real / Pow10(|d|) as real == cents as real / 100.0
  {
    var a, b := DigitChar(cents / 10), DigitChar(cents % 10);
    var d := Decimals(ShownCents(a, b));
    assert Pow10(0) == 1 && Pow10(1) == 10 && Pow10(2) == 100;
    if b != '0' {
      assert d == [a, b] && d[..1] == [a];
      assert NatValue([a]) == cents / 10;
    } else if a != '0' {
      assert d == [a] && d[..0] == "";
    }
  }

  lemma SplitAtPoint(digits: string, fraction: string)
    requires digits != "" && All(digits, IsDigit) && IsFraction(fraction)
    ensures var t := digits + fraction;
            && RunLength(t, IsDigit) == |digits| && t[..|digits|] == digits
            && (fraction == "" ==> |t| == |digits|)
            && (fraction != "" ==> |t| > |digits| && t[|digits|] == '.' && t[|digits| + 1..] == fraction[1..])
  {
    RunLengthIs(digits, fraction, IsDigit);
  }

  lemma ParseParts(digits: string, fraction: string)
    requires digits != "" && All(digits, IsDigit) && IsFraction(fraction)
    ensures ParseUnsigned(digits + fraction) == Some(DecimalValue(digits, Decimals(fraction)))
  {
    SplitAtPoint(digits, fraction);
  }

  lemma SplitCents(n: nat)
    ensures (n / 100) as real + (n % 100) as real / 100.0 == Amount(n)
  {
    assert n == n / 100 * 100 + n % 100;
  }

  lemma ParseMagnitude(n: nat, digits: string, fraction: string)
    requires digits == Digits(n / 100)
    requires fraction == ShownCents(DigitChar(n % 100 / 10), DigitChar(n % 100 % 10))
    ensures ParseUnsigned(digits + fraction) == Some(Amount(n))
  {
    ReadDigits(n / 100);
    ReadCents(n % 100);
    SplitCents(n);
    ParseParts(digits, fraction);
  }

  lemma ParsePositive(t: string)
    requires t != "" && IsDigit(t[0])
    ensures ParseFloat(t) == ParseUnsigned(t)
  {}

  lemma ParseNegative(t: string)
    ensures ParseFloat("-" + t) == Negated(ParseUnsigned(t))
  {
    assert ("-" + t)[0] == '-' && ("-" + t)[1..] == t;
  }

  lemma ParseSigned(sign: string, t: string, value: real)
    requires (sign == "" || sign == "-") && t != "" && IsDigit(t[0]) && ParseUnsigned(t) == Some(value)
    ensures ParseFloat(sign + t) == Some(if sign == "" then value else -value)
  {
    if sign == "" {
      assert sign + t == t;
      ParsePositive(t);
    } else {
      ParseNegative(t);
    }
  }

  lemma StartsWithDigit(digits: string, fraction: string)
    requires digits != "" && All(digits, IsDigit)
    ensures var t := digits + fraction; t != "" && IsDigit(t[0])
  {
    assert (digits + fraction)[0] == digits[0];
  }

  lemma AmountOfSign(c: int)
    ensures Amount(c) == if Sign(c) == "" then Amount(Abs(c)) else -Amount(Abs(c))
  {}

  lemma ParseRendering(c: int)
    ensures ParseFloat(Sign(c) + (Digits(Abs(c) / 100) + Fraction(c))) == Some(Amount(c))
  {
    var digits, fraction := Digits(Abs(c) / 100), Fraction(c);
    ParseMagnitude(Abs(c), digits, fraction);
    StartsWithDigit(digits, fraction);
    AmountOfSign(c);
    ParseSigned(Sign(c), digits + fraction, Amount(Abs(c)));
  }

  lemma RemoveFromParts(sign: string, whole: string, fraction: string, c: char)
    requires c !in sign && c !in fraction
    ensures Remove(sign + whole + fraction, c) == sign + (Remove(whole, c) + fraction)
  {
    RemoveAppend(sign + whole, fraction, c);
    RemoveAppend(sign, whole, c);
    RemoveNothing(sign, c);
    RemoveNothing(fraction, c);
    Associate(sign, Remove(whole, c), fraction);
  }

  lemma RemoveCommas(c: int, grouped: bool)
    ensures Remove(Render(c, grouped), ',') == Sign(c) + (Digits(Abs(c) / 100) + Fraction(c))
  {
    RenderShape(c, grouped);
    WholeShape(c, grouped);
    RemoveFromParts(Sign(c), Whole(c, grouped), Fraction(c), ',');
  }

  /** A rendering starts with a digit or a minus sign and ends with a digit. */
  predicate NumeralEnds(r: string) {
    r != "" && IsDigit(r[|r| - 1]) && (IsDigit(r[0]) || r[0] == '-')
  }

  lemma PartsEnd(sign: string, whole: string, fraction: string)
    requires (sign == "" || sign == "-") && IsNumeral(whole) && IsFraction(fraction) && |fraction| != 1
    ensures NumeralEnds(sign + whole + fraction)
  {
    var r := sign + whole + fraction;
    assert r[|r| - 1] == if fraction == "" then whole[|whole| - 1] else fraction[|fraction| - 1];
    assert r[0] == if sign == "" then whole[0] else '-';
  }

  lemma RenderEnds(c: int, grouped: bool)
    ensures NumeralEnds(Render(c, grouped))
  {
    RenderShape(c, grouped);
    WholeShape(c, grouped);
    PartsEnd(Sign(c), Whole(c, grouped), Fraction(c));
  }

  lemma StripParens(r: string)
    requires NumeralEnds(r)
    ensures StripRight(StripLeft(r, IsParen), IsParen) == r
    ensures StripRight(StripLeft("(" + r + ")", IsParen), IsParen) == r
  {
    StripNone(r, IsParen);
    var open := "(" + r + ")";
    assert open[1..] == r + [')'];
    assert StripLeft(r + [')'], IsParen) == r + [')'];
    StripOne(r, ')', IsParen);
  }

  lemma Parens(r: string)
    ensures ("(" + r + ")")[0] == '(' && ("(" + r + ")")[|r| + 1] == ')' && |"(" + r + ")"| == |r| + 2
  {}

  /** Parentheses around a number negate it, and nothing else about it changes. */
  lemma MatchValueOf(r: string, value: real)
    requires NumeralEnds(r) && ParseFloat(Remove(r, ',')) == Some(value)
    ensures MatchValue(r) == Some(value) && MatchValue("(" + r + ")") == Some(-value)
  {
    StripParens(r);
    Parens(r);
  }

  /** The accounting notation for the negative of an amount. */
  function Parenthesised(c: nat, grouped: bool): string {
    "(" + Render(c, grouped) + ")"
  }

  lemma MatchValueOfParenthesised(c: nat, grouped: bool)
    ensures MatchValue(Parenthesised(c, grouped)) == Some(-Amount(c))
  {
    RenderEnds(c, grouped);
    RemoveCommas(c, grouped);
    ParseRendering(c);
    MatchValueOf(Render(c, grouped), Amount(c));
  }

  lemma MatchValueOfRendering(c: int, grouped: bool)
    ensures MatchValue(Render(c, grouped)) == Some(Amount(c))
  {
    RenderEnds(c, grouped);
    RemoveCommas(c, grouped);
    ParseRendering(c);
    MatchValueOf(Render(c, grouped), Amount(c));
  }

  // ----- Numbers inside text -----

  lemma {:induction false} StripLeftKeeps(prefix: string, rest: string, p: char -> bool)
    requires rest != "" && !p(rest[0])
    ensures StripLeft(prefix + rest, p) == StripLeft(prefix, p) + rest
  {
    if prefix == "" {
      assert prefix + rest == rest;
    } else {
      assert (prefix + rest)[1..] == prefix[1..] + rest;
      StripLeftKeeps(prefix[1..], rest, p);
    }
  }

  lemma {:induction false} StripRightKeeps(rest: string, suffix: string, p: char -> bool)
    requires rest != "" && !p(rest[|rest| - 1])
    ensures StripRight(rest + suffix, p) == rest + StripRight(suffix, p)
  {
    if suffix == "" {
      assert rest + suffix == rest;
    } else {
      assert (rest + suffix)[..|rest + suffix| - 1] == rest + suffix[..|suffix| - 1];
      StripRightKeeps(rest, suffix[..|suffix| - 1], p);
    }
  }

  lemma {:induction false} StripLeftShape(s: string, p: char -> bool)
    requires NumberFree(s)
    ensures NumberFree(StripLeft(s, p))
    ensures '%' in StripLeft(s, p) ==> '%' in s
  {
    if s == "" || !p(s[0]) {
    } else {
      StripLeftShape(s[1..], p);
    }
  }

  lemma {:induction false} StripRightShape(s: string, p: char -> bool)
    requires Tail(s)
    ensures Tail(StripRight(s, p))
    ensures '%' in StripRight(s, p) ==> '%' in s
  {
    if s == "" || !p(s[|s| - 1]) {
    } else {
      StripRightShape(s[..|s| - 1], p);
    }
  }

  /** A text that the scanner takes for one number, whatever follows it. */
  ghost predicate OneMatch(number: string) {
    && number != "" && !IsSpace(number[0]) && !IsSpace(number[|number| - 1])
    && forall rest :: Tail(rest) ==> MatchLength(number + rest) == |number|
  }

  lemma StripAround(prefix: string, number: string, suffix: string)
    requires number != "" && !IsSpace(number[0]) && !IsSpace(number[|number| - 1])
    ensures Strip(prefix + number + suffix) == StripLeft(prefix, IsSpace) + (number + StripRight(suffix, IsSpace))
  {
    var p, q := StripLeft(prefix, IsSpace), StripRight(suffix, IsSpace);
    Associate(prefix, number, suffix);
    StripLeftKeeps(prefix, number + suffix, IsSpace);
    Associate(p, number, suffix);
    assert (p + number)[|p + number| - 1] == number[|number| - 1];
    StripRightKeeps(p + number, suffix, IsSpace);
    Associate(p, number, q);
  }

  lemma Associate(a: string, b: string, c: string)
    ensures a + b + c == a + (b + c)
  {}

  lemma FindInText(prefix: string, number: string, suffix: string)
    requires OneMatch(number) && NumberFree(prefix) && Tail(suffix)
    ensures FindAll(Strip(prefix + number + suffix)) == [number]
  {
    StripAround(prefix, number, suffix);
    StripLeftShape(prefix, IsSpace);
    StripRightShape(suffix, IsSpace);
    FindOne(number, StripRight(suffix, IsSpace));
    FindSkips(StripLeft(prefix, IsSpace), number + StripRight(suffix, IsSpace));
  }

  lemma RenderingIsOneMatch(c: int, grouped: bool)
    ensures OneMatch(Render(c, grouped))
  {
    RenderEnds(c, grouped);
    forall rest | Tail(rest) ensures MatchLength(Render(c, grouped) + rest) == |Render(c, grouped)| {
      MatchRendering(c, grouped, rest);
    }
  }

  lemma ParenthesisedIsOneMatch(c: nat, grouped: bool)
    ensures OneMatch(Parenthesised(c, grouped))
  {
    forall rest | Tail(rest)
      ensures MatchLength(Parenthesised(c, grouped) + rest) == |Parenthesised(c, grouped)|
    {
      MatchParenthesised(c, grouped, rest);
    }
  }

  /** The text has exactly one number in it, and that denotes `value`. */
  predicate DenotesOne(text: string, number: string, value: real) {
    FindAll(Strip(text)) == [number] && MatchValue(number) == Some(value)
  }

  /** What the normalization makes of such a text: the value times the scale word of the text, or
      the bare value if the text has a percent sign. */
  lemma GradeOfOne(text: string, number: string, value: real, product: real)
    requires DenotesOne(text, number, value) && IsProduct(product, value, ScaleOf(Lower(Strip(text))))
    ensures Normalize(text) == Some(NormalizedNumber(if '%' in Strip(text) then value else product, '%' in Strip(text)))
  {
    var s := Strip(text);
    GradeScales(number, value, '%' in s, ScaleOf(Lower(s)), product);
    NormalizedBy(text);
  }

  predicate IsProduct(product: real, x: real, y: real) {
    product == x * y
  }

  lemma NormalizedBy(text: string)
    ensures Normalize(text) == Grade(FindAll(Strip(text)), '%' in Strip(text), ScaleOf(Lower(Strip(text))))
  {}

  lemma GradeScales(number: string, value: real, isPercent: bool, scale: real, product: real)
    requires MatchValue(number) == Some(value) && IsProduct(product, value, scale)
    ensures Grade([number], isPercent, scale)
            == Some(NormalizedNumber(if isPercent then value else product, isPercent))
  {}

  /** Round trip: any amount of cents, of any size, rendered with or without commas and
      put anywhere in a text that has no other digit, is the one number found there and
      is read back exactly. */
  lemma RenderedAmountIsRead(c: int, grouped: bool, prefix: string, suffix: string)
    requires NumberFree(prefix) && Tail(suffix)
    ensures DenotesOne(prefix + Render(c, grouped) + suffix, Render(c, grouped), Amount(c))
  {
    RenderingIsOneMatch(c, grouped);
    MatchValueOfRendering(c, grouped);
    FindInText(prefix, Render(c, grouped), suffix);
  }

  /** The parenthesised rendering of a non-negative amount is read as its negation. */
  lemma ParenthesisedAmountIsNegated(c: nat, grouped: bool, prefix: string, suffix: string)
    requires NumberFree(prefix) && Tail(suffix)
    ensures DenotesOne(prefix + Parenthesised(c, grouped) + suffix, Parenthesised(c, grouped), -Amount(c))
  {
    ParenthesisedIsOneMatch(c, grouped);
    MatchValueOfParenthesised(c, grouped);
    FindInText(prefix, Parenthesised(c, grouped), suffix);
  }

  // ----- Scale words after a number -----

  predicate Letterless(s: string) {
    forall i :: 0 <= i < |s| ==> !IsLetter(s[i])
  }

  lemma WordStarts(word: string, s: string, i: nat)
    requires WordAt(word, s, i)
    ensures forall k :: 0 <= k < |word| ==> s[i + k] == word[k]
  {
    forall k | 0 <= k < |word| ensures s[i + k] == word[k] {
      assert s[i..i + |word|][k] == s[i + k];
    }
  }

  lemma NoWord(word: string, s: string)
    requires Letterless(s) && word != "" && IsLetter(word[0])
    ensures !ContainsWord(word, s)
  {
    forall i | 0 <= i < |s| ensures !WordAt(word, s, i) {
      if WordAt(word, s, i) {
        WordStarts(word, s, i);
      }
    }
  }

  lemma {:induction false} NoScale(s: string, k: nat)
    requires Letterless(s) && k <= |SCALE_WORDS|
    ensures ScaleFrom(s, k) == 1.0
    decreases |SCALE_WORDS| - k
  {
    if k >= |SCALE_WORDS| {
    } else {
      NoWord(SCALE_WORDS[k].0, s);
      NoScale(s, k + 1);
    }
  }

  /** A rendering has no letter, no percent sign and no space around it. */
  lemma RenderingIsPlain(c: int, grouped: bool)
    ensures var r := Render(c, grouped);
            Letterless(r) && '%' !in r && Strip(r) == r && Letterless(Lower(r))
  {
    RenderEnds(c, grouped);
    RenderShape(c, grouped);
    WholeShape(c, grouped);
    PartsArePlain(Sign(c), Whole(c, grouped), Fraction(c));
  }

  lemma PartsArePlain(s: string, w: string, f: string)
    requires (s == "" || s == "-") && IsNumeral(w) && IsFraction(f)
    ensures Letterless(s + w + f) && '%' !in s + w + f
  {
    var r := s + w + f;
    forall i | 0 <= i < |r| ensures !IsLetter(r[i]) && r[i] != '%' {
      assert r[i] == if i < |s| then s[i] else if i < |s| + |w| then w[i - |s|] else f[i - |s| - |w|];
      assert forall k :: 1 <= k < |f| ==> f[k] == f[1..][k - 1];
    }
  }

  lemma GradePlain(r: string, value: real)
    requires DenotesOne(r, r, value) && '%' !in r && Strip(r) == r && Letterless(Lower(r))
    ensures Normalize(r) == Some(NormalizedNumber(value, false))
  {
    NoScale(Lower(r), 0);
    GradeOfOne(r, r, value, value);
  }

  lemma RenderedAmountAlone(c: int, grouped: bool)
    ensures DenotesOne(Render(c, grouped), Render(c, grouped), Amount(c))
  {
    RenderingIsOneMatch(c, grouped);
    MatchValueOfRendering(c, grouped);
    FoundAlone(Render(c, grouped));
  }

  lemma FoundAlone(number: string)
    requires OneMatch(number)
    ensures FindAll(Strip(number)) == [number]
  {
    FindInText("", number, "");
    assert "" + number + "" == number;
  }

  /** A bare rendering is graded as the amount itself, as a number and not a percentage. */
  lemma NormalizeRendering(c: int, grouped: bool)
    ensures Normalize(Render(c, grouped)) == Some(NormalizedNumber(Amount(c), false))
  {
    var r := Render(c, grouped);
    RenderedAmountAlone(c, grouped);
    RenderingIsPlain(c, grouped);
    GradePlain(r, Amount(c));
  }

  predicate IsWord(w: string) {
    w != "" && All(w, IsLetter) && Lower(w) == w
  }

  /** After letterless text and a space, a word of letters is found as itself only. */
  lemma OnlyWord(r: string, word: string, other: string)
    requires Letterless(r) && IsWord(word) && IsWord(other)
    ensures ContainsWord(other, r + " " + word) <==> other == word
  {
    var t := r + " " + word;
    var start := |r| + 1;
    assert t[start..start + |word|] == word && t[start - 1] == ' ';
    assert WordAt(word, t, start);
    assert forall k :: start <= k < |t| ==> t[k] == word[k - start];
    assert forall k :: 0 <= k < start ==> !IsLetter(t[k]);
    forall i | 0 <= i < |t| && WordAt(other, t, i) ensures other == word {
      WordStarts(other, t, i);
      assert IsLetter(t[i + 0]);
      assert i == start && |other| == |word|;
      assert t[i..i + |other|] == word;
    }
  }

  lemma {:induction false} FirstScale(s: string, k: nat, m: nat)
    requires k <= m < |SCALE_WORDS|
    requires forall j :: 0 <= j < |SCALE_WORDS| ==> (ContainsWord(SCALE_WORDS[j].0, s) <==> j == m)
    ensures ScaleFrom(s, k) == SCALE_WORDS[m].1
    decreases m - k
  {
    if k >= m {
    } else {
      FirstScale(s, k + 1, m);
    }
  }

  lemma ScaleOfSuffix(r: string, m: nat)
    requires Letterless(r) && m < |SCALE_WORDS|
    ensures ScaleOf(r + " " + SCALE_WORDS[m].0) == SCALE_WORDS[m].1
  {
    var s := r + " " + SCALE_WORDS[m].0;
    forall j | 0 <= j < |SCALE_WORDS| ensures ContainsWord(SCALE_WORDS[j].0, s) <==> j == m {
      TableWord(m);
      TableWord(j);
      OnlyWord(r, SCALE_WORDS[m].0, SCALE_WORDS[j].0);
      TableWordsDiffer(j, m);
    }
    FirstScale(s, 0, m);
  }

  lemma TableWordIsLower(j: nat)
    requires j < |SCALE_WORDS|
    ensures var w := SCALE_WORDS[j].0;
            w != "" && forall i :: 0 <= i < |w| ==> 'a' <= w[i] <= 'z'
  {}

  lemma TableWord(j: nat)
    requires j < |SCALE_WORDS|
    ensures IsWord(SCALE_WORDS[j].0)
  {
    TableWordIsLower(j);
    LowerWord(SCALE_WORDS[j].0);
  }

  lemma LowerWord(w: string)
    requires w != "" && forall i :: 0 <= i < |w| ==> 'a' <= w[i] <= 'z'
    ensures IsWord(w)
  {
    LowerOfLower(w);
  }

  lemma {:induction false} LowerOfLower(w: string)
    requires forall i :: 0 <= i < |w| ==> !('A' <= w[i] <= 'Z')
    ensures Lower(w) == w
  {
    if w == "" {
    } else {
      LowerOfLower(w[1..]);
      assert [w[0]] + w[1..] == w;
    }
  }

  lemma TableWordsDiffer(j: nat, k: nat)
    requires j < |SCALE_WORDS| && k < |SCALE_WORDS|
    ensures SCALE_WORDS[j].0 == SCALE_WORDS[k].0 <==> j == k
  {
    var lengths := [8, 9, 7, 8, 2, 7, 8, 2, 8, 9];
    assert |SCALE_WORDS[j].0| == lengths[j] && |SCALE_WORDS[k].0| == lengths[k];
  }

  /** The word, with some of its letters in upper case. */
  predicate IsCased(written: string, word: string) {
    && |written| == |word|
    && forall i :: 0 <= i < |word| ==>
         written[i] == word[i] || ('A' <= written[i] <= 'Z' && written[i] - 'A' + 'a' == word[i])
  }

  predicate IsLowerWord(word: string) {
    word != "" && forall i :: 0 <= i < |word| ==> 'a' <= word[i] <= 'z'
  }

  lemma CasedLetters(written: string, word: string)
    requires IsCased(written, word) && IsLowerWord(word)
    ensures written != "" && forall i :: 0 <= i < |written| ==> IsLetter(written[i]) && LowerChar(written[i]) == word[i]
  {}

  lemma LowerIs(s: string, t: string)
    requires |s| == |t| && forall i :: 0 <= i < |s| ==> LowerChar(s[i]) == t[i]
    ensures Lower(s) == t
  {}

  lemma CasedIsLowered(r: string, written: string, word: string)
    requires Letterless(r) && IsCased(written, word) && IsLowerWord(word)
    ensures Lower(r + " " + written) == r + " " + word && Lower(written) == word
  {
    CasedLetters(written, word);
    var s, t := r + " " + written, r + " " + word;
    forall i | 0 <= i < |s| ensures LowerChar(s[i]) == t[i] {
      if i > |r| {
        assert s[i] == written[i - |r| - 1] && t[i] == word[i - |r| - 1];
      } else {
        assert s[i] == t[i] && (i < |r| ==> !IsLetter(r[i]));
      }
    }
    LowerIs(s, t);
    LowerIs(written, word);
  }

  lemma SuffixedEnds(r: string, written: string)
    requires r != "" && !IsSpace(r[0]) && written != "" && IsLetter(written[|written| - 1])
    ensures Strip(r + " " + written) == r + " " + written
  {
    var s := r + " " + written;
    assert s[0] == r[0] && s[|s| - 1] == written[|written| - 1];
  }

  lemma NoPercent(r: string, written: string)
    requires '%' !in r && forall i :: 0 <= i < |written| ==> IsLetter(written[i])
    ensures '%' !in r + " " + written
  {}

  lemma {:induction false} GradeSuffixed(r: string, written: string, m: nat, value: real, product: real)
    requires m < |SCALE_WORDS| && Letterless(r) && r != "" && !IsSpace(r[0]) && '%' !in r
    requires IsCased(written, SCALE_WORDS[m].0)
    requires DenotesOne(r + " " + written, r, value) && IsProduct(product, value, SCALE_WORDS[m].1)
    ensures Normalize(r + " " + written) == Some(NormalizedNumber(product, false))
  {
    TableWordIsLower(m);
    CasedLetters(written, SCALE_WORDS[m].0);
    CasedIsLowered(r, written, SCALE_WORDS[m].0);
    SuffixedEnds(r, written);
    NoPercent(r, written);
    ScaleOfSuffix(r, m);
    GradeOfOne(r + " " + written, r, value, product);
  }

  lemma WithoutPrefix(r: string, word: string)
    ensures "" + r + (" " + word) == r + " " + word
  {}

  lemma SuffixIsTail(word: string)
    requires word != "" && All(word, IsLetter)
    ensures Tail(" " + word)
  {
    assert forall i :: 1 <= i <= |word| ==> (" " + word)[i] == word[i - 1];
  }

  lemma SuffixedAmountIsRead(c: int, grouped: bool, word: string)
    requires word != "" && All(word, IsLetter)
    ensures DenotesOne(Render(c, grouped) + " " + word, Render(c, grouped), Amount(c))
  {
    SuffixIsTail(word);
    RenderedAmountIsRead(c, grouped, "", " " + word);
    WithoutPrefix(Render(c, grouped), word);
  }

  /** The scale words, and the powers of ten that they stand for. */
  predicate StandsFor(word: string, scale: real) {
    || (scale == 1000.0 && (word == "thousand" || word == "thousands"))
    || (scale == 1000000.0 && (word == "million" || word == "millions" || word == "mm"))
    || (scale == 1000000000.0 && (word == "billion" || word == "billions" || word == "bn"))
    || (scale == 1000000000000.0 && (word == "trillion" || word == "trillions"))
  }

  /** The table has the word, with this multiplier. */
  predicate Multiplies(word: string, scale: real) {
    exists m :: 0 <= m < |SCALE_WORDS| && SCALE_WORDS[m] == (word, scale)
  }

  lemma TableHoldsPowers(word: string, scale: real)
    requires StandsFor(word, scale)
    ensures Multiplies(word, scale)
  {
    var t := SCALE_WORDS;
    assert t[0].0 == "thousand" && t[1].0 == "thousands" && t[2].0 == "million" && t[3].0 == "millions";
    assert t[4].0 == "mm" && t[5].0 == "billion" && t[6].0 == "billions" && t[7].0 == "bn";
    assert t[8].0 == "trillion" && t[9].0 == "trillions";
  }

  lemma {:induction false} SuffixedAmountIsGraded(c: int, grouped: bool, word: string, written: string, scale: real,
                                                  product: real)
    requires Multiplies(word, scale) && IsCased(written, word) && IsProduct(product, Amount(c), scale)
    ensures Normalize(Render(c, grouped) + " " + written) == Some(NormalizedNumber(product, false))
  {
    var m :| 0 <= m < |SCALE_WORDS| && SCALE_WORDS[m] == (word, scale);
    TableWordIsLower(m);
    CasedLetters(written, word);
    SuffixedAmountIsRead(c, grouped, written);
    RenderingIsPlain(c, grouped);
    RenderEnds(c, grouped);
    GradeWord(Render(c, grouped), m, word, written, scale, Amount(c), product);
  }

  lemma {:induction false} GradeWord(r: string, m: nat, word: string, written: string, scale: real, value: real,
                                     product: real)
    requires m < |SCALE_WORDS| && SCALE_WORDS[m] == (word, scale) && IsCased(written, word)
    requires Letterless(r) && NumeralEnds(r) && '%' !in r
    requires DenotesOne(r + " " + written, r, value) && IsProduct(product, value, scale)
    ensures Normalize(r + " " + written) == Some(NormalizedNumber(product, false))
  {
    GradeSuffixed(r, written, m, value, product);
  }

  /** A scale word after the amount, in whatever case, multiplies it by the word's power of
      ten. */
  lemma {:induction false} ScaledAmountIsRead(c: int, grouped: bool, word: string, written: string, scale: real,
                                              value: real)
    requires StandsFor(word, scale) && IsCased(written, word) && value == Amount(c) * scale
    ensures Normalize(Render(c, grouped) + " " + written) == Some(NormalizedNumber(value, false))
  {
    TableHoldsPowers(word, scale);
    SuffixedAmountIsGraded(c, grouped, word, written, scale, value);
  }

  lemma StripWord(word: string)
    requires word != "" && All(word, IsLetter)
    ensures Strip(word) == word
  {}

  lemma OnlyTableWord(m: nat, j: nat)
    requires m < |SCALE_WORDS| && j < |SCALE_WORDS|
    ensures ContainsWord(SCALE_WORDS[j].0, SCALE_WORDS[m].0) <==> j == m
  {
    TableWord(m);
    TableWord(j);
    OnlyWordAlone(SCALE_WORDS[m].0, SCALE_WORDS[j].0);
    TableWordsDiffer(j, m);
  }

  lemma ScaleOfTableWord(m: nat)
    requires m < |SCALE_WORDS|
    ensures ScaleOf(SCALE_WORDS[m].0) == SCALE_WORDS[m].1
  {
    var word := SCALE_WORDS[m].0;
    forall j | 0 <= j < |SCALE_WORDS| ensures ContainsWord(SCALE_WORDS[j].0, word) <==> j == m {
      OnlyTableWord(m, j);
    }
    FirstScale(word, 0, m);
  }

  lemma WordIsScale(word: string, written: string, scale: real)
    requires Multiplies(word, scale) && IsCased(written, word)
    ensures ScaleMultiplier(Some(written)) == scale
  {
    var m :| 0 <= m < |SCALE_WORDS| && SCALE_WORDS[m] == (word, scale);
    TableWordIsLower(m);
    CasedLetters(written, word);
    StripWord(written);
    LowerIs(written, word);
    ScaleOfTableWord(m);
  }

  /** The words scale the figures of the page alike. */
  lemma MultiplierIsPower(word: string, written: string, scale: real)
    requires StandsFor(word, scale) && IsCased(written, word)
    ensures ScaleMultiplier(Some(written)) == scale && ScaleMultiplier(None) == 1.0
  {
    TableHoldsPowers(word, scale);
    WordIsScale(word, written, scale);
  }

  lemma WordAlone(word: string)
    requires word != ""
    ensures WordAt(word, word, 0)
  {}

  lemma OnlyWordAlone(word: string, other: string)
    requires IsWord(word) && IsWord(other)
    ensures ContainsWord(other, word) <==> other == word
  {
    WordAlone(word);
    forall i | 0 <= i < |word| && WordAt(other, word, i) ensures other == word {
      assert i == 0 && |other| == |word|;
      assert word[0..|other|] == word;
    }
  }

  // ----- Percentages -----

  lemma {:induction false} StripLeftLeaves(s: string, c: char)
    requires c in s && !IsSpace(c)
    ensures c in StripLeft(s, IsSpace)
  {
    if s == "" || !IsSpace(s[0]) {
    } else {
      assert s == [s[0]] + s[1..];
      StripLeftLeaves(s[1..], c);
    }
  }

  lemma {:induction false} StripRightLeaves(s: string, c: char)
    requires c in s && !IsSpace(c)
    ensures c in StripRight(s, IsSpace)
  {
    if s == "" || !IsSpace(s[|s| - 1]) {
    } else {
      assert s == s[..|s| - 1] + [s[|s| - 1]];
      StripRightLeaves(s[..|s| - 1], c);
    }
  }

  /** With a percent sign anywhere around it, the amount is read as it is, whatever scale
      words there are. */
  lemma PercentageIsNotScaled(c: int, grouped: bool, prefix: string, suffix: string)
    requires NumberFree(prefix) && Tail(suffix) && '%' in prefix + suffix
    ensures Normalize(prefix + Render(c, grouped) + suffix) == Some(NormalizedNumber(Amount(c), true))
  {
    var text := prefix + Render(c, grouped) + suffix;
    RenderedAmountIsRead(c, grouped, prefix, suffix);
    assert '%' in text;
    StripLeftLeaves(text, '%');
    StripRightLeaves(StripLeft(text, IsSpace), '%');
    GradeOfOne(text, Render(c, grouped), Amount(c), Amount(c) * ScaleOf(Lower(Strip(text))));
  }
}
