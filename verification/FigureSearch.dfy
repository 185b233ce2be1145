/** When the gate's search for a figure finds nothing but that figure, and when it finds a
    figure that is written: the roundings that it searches besides, and the one digit that
    it does not take for evidence. */
module FigureSearch {
  import opened Basics
  import opened Numbers
  import opened NumberRoundTrip
  import opened Gate
  import opened GateSafety

  // ----- How many digits a rendering has -----

  /** A whole amount of one digit. */
  predicate IsOneDigit(c: int) {
    c % 100 == 0 && -1000 < c < 1000
  }

  lemma {:induction false} DigitCountAppend(a: string, b: string)
    ensures DigitCount(a + b) == DigitCount(a) + DigitCount(b)
  {
    if a == "" {
      assert a + b == b;
    } else {
      assert (a + b)[1..] == a[1..] + b;
      DigitCountAppend(a[1..], b);
    }
  }

  lemma {:induction false} DigitCountOfDigits(s: string)
    requires All(s, IsDigit)
    ensures DigitCount(s) == |s|
  {
    if s == "" {
    } else {
      DigitCountOfDigits(s[1..]);
    }
  }

  lemma {:induction false} DigitCountWithoutCommas(s: string)
    ensures DigitCount(Remove(s, ',')) == DigitCount(s)
  {
    if s == "" {
    } else {
      DigitCountWithoutCommas(s[1..]);
      DigitCountAppend(if s[0] == ',' then "" else [s[0]], Remove(s[1..], ','));
    }
  }

  lemma DigitsOfWhole(n: nat)
    ensures DigitCount(Digits(n)) >= 1 && (DigitCount(Digits(n)) >= 2 <==> n >= 10)
  {
    DigitCountOfDigits(Digits(n));
  }

  lemma DigitsOfShownCents(a: char, b: char)
    requires IsDigit(a) && IsDigit(b)
    ensures DigitCount(ShownCents(a, b)) >= 1 <==> a != '0' || b != '0'
    ensures ShownCents(a, b) == "" <==> a == '0' && b == '0'
  {
    DigitCountAppend(".", [a, b]);
    DigitCountAppend(".", [a]);
    DigitCountOfDigits([a, b]);
    DigitCountOfDigits([a]);
  }

  lemma DigitsOfFraction(c: int)
    ensures DigitCount(Fraction(c)) >= 1 <==> c % 100 != 0
    ensures Fraction(c) == "" <==> c % 100 == 0
  {
    var cents := Abs(c) % 100;
    DigitsOfShownCents(DigitChar(cents / 10), DigitChar(cents % 10));
    assert cents == 10 * (cents / 10) + cents % 10;
    assert cents == 0 <==> c % 100 == 0;
  }

  /** Two digits or more, unless the amount is whole and of one digit. */
  lemma DigitsOfRendering(c: int, v: string)
    requires v in Renderings(c)
    ensures DigitCount(v) >= 2 <==> !IsOneDigit(c)
  {
    UngroupedRendering(c);
    DigitCountWithoutCommas(Render(c, true));
    RenderShape(c, false);
    DigitCountAppend(Sign(c) + Digits(Abs(c) / 100), Fraction(c));
    DigitCountAppend(Sign(c), Digits(Abs(c) / 100));
    DigitsOfWhole(Abs(c) / 100);
    DigitsOfFraction(c);
    SignHasNoDigit(c);
  }

  lemma SignHasNoDigit(c: int)
    ensures DigitCount(Sign(c)) == 0
  {}

  // ----- A figure that is written -----

  lemma SearchedIsFound(value: real, scale: Option<string>, c: int, v: string, text: string)
    requires c in PageCents(Unscaled(value, scale)) && v in Renderings(c)
    requires !IsOneDigit(c) && Occurs(v, text)
    ensures ValueFound(value, scale, text)
  {
    DigitsOfRendering(c, v);
    VariantsAreRenderings(Unscaled(value, scale), v);
  }

  lemma WholeAmount(c: int)
    requires c % 100 == 0
    ensures Amount(c) == (c / 100) as real
  {}

  lemma OneDigitAlone(c: int)
    requires IsOneDigit(c)
    ensures PageCents(Amount(c)) == {c}
  {
    WholeAmount(c);
    RoundWhole(c / 100);
  }

  lemma OneDigitIsNotFound(value: real, scale: Option<string>, c: int, text: string)
    requires Unscaled(value, scale) == Amount(c) && IsOneDigit(c)
    ensures !ValueFound(value, scale, text)
  {
    OneDigitAlone(c);
    forall v | v in Variants(Amount(c)) ensures !IsEvidence(v, text) {
      VariantsAreRenderings(Amount(c), v);
      DigitsOfRendering(c, v);
    }
  }

  /** A figure of c cents that the page writes in full, with no digit beside it, is found,
      however large and in whatever scale, if and only if it is not whole and of one digit. */
  lemma WrittenIsFoundExactly(value: real, scale: Option<string>, c: int, grouped: bool, before: string, after: string)
    requires Unscaled(value, scale) == Amount(c)
    requires before == "" || !IsDigit(before[|before| - 1])
    requires after == "" || !IsDigit(after[0])
    ensures ValueFound(value, scale, before + Render(c, grouped) + after) <==> !IsOneDigit(c)
  {
    if IsOneDigit(c) {
      OneDigitIsNotFound(value, scale, c, before + Render(c, grouped) + after);
    } else {
      RoundCents(c);
      OccursBetween(Render(c, grouped), before, after);
      SearchedIsFound(value, scale, c, Render(c, grouped), before + Render(c, grouped) + after);
    }
  }

  // ----- Nothing but the figure -----

  /** The text writes the figure itself, undivided by digits. */
  ghost predicate Writes(text: string, raw: real) {
    exists c, v :: WritesAs(text, raw, c, v)
  }

  predicate WritesAs(text: string, raw: real, c: int, v: string) {
    Amount(c) == raw && v in Renderings(c) && IsEvidence(v, text)
  }

  /** Whatever the text, what is found is written. */
  ghost predicate FindsOnlyWritten(value: real, scale: Option<string>) {
    forall text :: ValueFound(value, scale, text) ==> Writes(text, Unscaled(value, scale))
  }

  /** Each amount searched for is the figure, or of one digit and so never evidence. */
  predicate SearchesOnlyItself(raw: real) {
    forall c :: c in PageCents(raw) ==> Amount(c) == raw || IsOneDigit(c)
  }

  lemma PointInRendering(c: int, v: string)
    requires v in Renderings(c)
    ensures '.' in v <==> c % 100 != 0
  {
    var grouped := v == Render(c, true);
    RenderShape(c, grouped);
    WholeShape(c, grouped);
    DigitsOfFraction(c);
    PointInParts(Sign(c), Whole(c, grouped), Fraction(c));
  }

  lemma PointInParts(sign: string, whole: string, fraction: string)
    requires (sign == "" || sign == "-") && All(whole, IsDigitOrComma) && IsFraction(fraction)
    ensures '.' in sign + whole + fraction <==> fraction != ""
  {
    if fraction != "" {
      assert (sign + whole + fraction)[|sign + whole|] == '.';
    }
  }

  lemma PointOccurs(v: string, text: string)
    requires Occurs(v, text) && '.' in v
    ensures '.' in text
  {
    var i :| 0 <= i <= |text| && OccursAt(v, text, i);
    assert text == text[..i] + v + text[i + |v|..];
  }

  /** A figure of d cents is searched for as itself, and rounded to a whole. */
  lemma CentsAreSearched(d: int, c: int)
    requires c in PageCents(Amount(d)) && c != d
    ensures c % 100 == 0 && d % 100 != 0
  {
    RoundCents(d);
    if d % 100 == 0 {
      WholeAmount(d);
      RoundWhole(d / 100);
    }
  }

  lemma NotWrittenInOther(c: int, d: int, v: string)
    requires c % 100 == 0 && d % 100 != 0 && v in Renderings(d)
    ensures !Occurs(v, Render(c, false))
  {
    PointInRendering(c, Render(c, false));
    PointInRendering(d, v);
    if Occurs(v, Render(c, false)) {
      PointOccurs(v, Render(c, false));
    }
  }

  /** The text of a rounding that is not the figure does not write the figure: if that is
      of whole cents, then its own text has a point and the rounding's has none. */
  lemma RoundingDoesNotWrite(raw: real, c: int)
    requires c in PageCents(raw) && Amount(c) != raw
    ensures !Writes(Render(c, false), raw)
  {
    forall d, v | Amount(d) == raw && v in Renderings(d) ensures !WritesAs(Render(c, false), raw, d, v) {
      CentsAreSearched(d, c);
      NotWrittenInOther(c, d, v);
    }
  }

  lemma OccursInItself(v: string)
    ensures Occurs(v, v)
  {
    assert OccursAt(v, v, 0);
  }

  /** Found means written, for every text, if and only if each of the three amounts that are
      searched for is the figure itself or has only one digit. */
  lemma FoundIsWrittenExactly(value: real, scale: Option<string>)
    ensures FindsOnlyWritten(value, scale) <==> SearchesOnlyItself(Unscaled(value, scale))
  {
    var raw := Unscaled(value, scale);
    if SearchesOnlyItself(raw) {
      forall text | ValueFound(value, scale, text) ensures Writes(text, raw) {
        FoundIsWritten(value, scale, text);
      }
    } else {
      var c :| c in PageCents(raw) && Amount(c) != raw && !IsOneDigit(c);
      OccursInItself(Render(c, false));
      SearchedIsFound(value, scale, c, Render(c, false), Render(c, false));
      RoundingDoesNotWrite(raw, c);
    }
  }

  lemma FoundIsWritten(value: real, scale: Option<string>, text: string)
    requires SearchesOnlyItself(Unscaled(value, scale)) && ValueFound(value, scale, text)
    ensures Writes(text, Unscaled(value, scale))
  {
    var raw := Unscaled(value, scale);
    var v :| v in Variants(raw) && IsEvidence(v, text);
    VariantsAreRenderings(raw, v);
    var c :| c in PageCents(raw) && v in Renderings(c);
    DigitsOfRendering(c, v);
    assert WritesAs(text, raw, c, v);
  }

  /** No amount but the figure is searched for exactly if the figure is whole. */
  lemma WholeIsSearchedAlone(raw: real)
    ensures (forall c :: c in PageCents(raw) ==> Amount(c) == raw) <==> raw == raw.Floor as real
  {
    if raw == raw.Floor as real {
      RoundWhole(raw.Floor);
      assert PageCents(raw) == {100 * raw.Floor};
    } else {
      assert 100 * Round(raw) in PageCents(raw) && Amount(100 * Round(raw)) == Round(raw) as real;
    }
  }

  /** From 9.5 on, found means written exactly for whole figures. */
  lemma LargeFoundIsWrittenExactly(value: real, scale: Option<string>)
    requires AbsReal(Unscaled(value, scale)) >= 9.5
    ensures FindsOnlyWritten(value, scale)
            <==> Unscaled(value, scale) == Unscaled(value, scale).Floor as real
  {
    FoundIsWrittenExactly(value, scale);
    LargeSearchesOnlyItself(Unscaled(value, scale));
  }

  lemma LargeSearchesOnlyItself(raw: real)
    requires AbsReal(raw) >= 9.5
    ensures SearchesOnlyItself(raw) <==> raw == raw.Floor as real
  {
    WholeIsSearchedAlone(raw);
    if raw != raw.Floor as real {
      assert 100 * Round(raw) in PageCents(raw) && Amount(100 * Round(raw)) == Round(raw) as real;
      assert !(-10 < Round(raw) < 10);
    }
  }

  /** For instance 12.34 is found in a text that says 12 only. */
  lemma RoundedFigureIsFound()
    ensures ValueFound(12.34, None, "12") && !Writes("12", 12.34)
  {
    assert Round(12.34) == 12 && Unscaled(12.34, None) == 12.34;
    assert 1200 in PageCents(12.34) && Amount(1200) == 12.0;
    TwelveWritten();
    OccursInItself("12");
    SearchedIsFound(12.34, None, 1200, "12", "12");
    RoundingDoesNotWrite(12.34, 1200);
  }

  lemma TwelveWritten()
    ensures Render(1200, false) == "12"
  {
    RenderShape(1200, false);
    DigitsOfFraction(1200);
    TwoDigits(1, 2);
    assert DigitChar(1) == '1' && DigitChar(2) == '2';
  }

  lemma TwoDigits(a: nat, b: nat)
    requires 0 < a < 10 && b < 10
    ensures Digits(10 * a + b) == [DigitChar(a)] + [DigitChar(b)]
  {
    assert Digits(a) == [DigitChar(a)];
  }
}
