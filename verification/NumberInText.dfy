/** When a figure that the gate finds in a text is a number of that text: what the scanner
    of eval/normalize.py takes whole, told from the characters around it. */
module NumberInText {
  import opened Basics
  import opened Numbers
  import opened NumberRoundTrip
  import opened Gate
  import opened GateSafety
  import opened FigureSearch

  // ----- A scanner, and what it takes -----

  /** How far a scanner goes from the start of a text: past the match there, or one
      character. `len` gives the length of that match, or 0. */
  function Advance(len: string -> nat, s: string): (n: nat)
    requires s != ""
    ensures 0 < n <= |s|
  {
    if 0 < len(s) <= |s| then len(s) else 1
  }

  function FindBy(len: string -> nat, s: string): seq<string>
    decreases |s|
  {
    if s == "" then []
    else (if 0 < len(s) <= |s| then [s[..len(s)]] else []) + FindBy(len, s[Advance(len, s)..])
  }

  /** The scanner comes to i. */
  predicate Arrives(len: string -> nat, s: string, i: nat)
    decreases |s|
  {
    i == 0 || (s != "" && i >= Advance(len, s) && Arrives(len, s[Advance(len, s)..], i - Advance(len, s)))
  }

  /** The scanner takes the m characters at i for one match. */
  predicate TakenBy(len: string -> nat, s: string, i: nat, m: nat) {
    Arrives(len, s, i) && i + m <= |s| && len(s[i..]) == m > 0
  }

  /** The m characters at i are listed. */
  predicate Listed(s: string, i: nat, m: nat, numbers: seq<string>) {
    i + m <= |s| && s[i..i + m] in numbers
  }

  lemma ListedLater(s: string, n: nat, i: nat, m: nat, first: seq<string>, others: seq<string>)
    requires n <= |s| && Listed(s[n..], i, m, others)
    ensures Listed(s, n + i, m, first + others)
  {
    assert s[n..][i..i + m] == s[n + i..n + i + m];
  }

  lemma {:induction false} TakenIsListed(len: string -> nat, s: string, i: nat, m: nat)
    requires TakenBy(len, s, i, m)
    ensures Listed(s, i, m, FindBy(len, s))
    decreases |s|
  {
    if i == 0 {
      assert s[0..] == s && s[0..m] == s[..m];
    } else {
      var n := Advance(len, s);
      assert s[n..][i - n..] == s[i..];
      TakenIsListed(len, s[n..], i - n, m);
      ListedLater(s, n, i - n, m, if 0 < len(s) <= |s| then [s[..len(s)]] else [], FindBy(len, s[n..]));
    }
  }

  lemma {:induction false} ListedIsTaken(len: string -> nat, s: string, number: string) returns (i: nat)
    requires number in FindBy(len, s)
    ensures TakenBy(len, s, i, |number|) && s[i..i + |number|] == number
    decreases |s|
  {
    if 0 < len(s) <= |s| && number == s[..len(s)] {
      i := 0;
      assert s[0..] == s;
    } else {
      var n := Advance(len, s);
      var j := ListedIsTaken(len, s[n..], number);
      i := n + j;
      assert s[n..][j..] == s[i..] && s[n..][j..j + |number|] == s[i..i + |number|];
    }
  }

  lemma {:induction false} FindAllIsFindBy(s: string)
    ensures FindAll(s) == FindBy(MatchLength, s)
    decreases |s|
  {
    if s == "" {
    } else {
      FindAllIsFindBy(s[Advance(MatchLength, s)..]);
    }
  }

  /** The scanner of the grading takes the m characters at i for one number. */
  predicate TakenAt(s: string, i: nat, m: nat) {
    TakenBy(MatchLength, s, i, m)
  }

  lemma ListedAreTaken(len: string -> nat, s: string, number: string)
    ensures number in FindBy(len, s) <==> exists i: nat :: TakenBy(len, s, i, |number|) && s[i..i + |number|] == number
  {
    if number in FindBy(len, s) {
      var i := ListedIsTaken(len, s, number);
      assert TakenBy(len, s, i, |number|);
    }
    if i: nat :| TakenBy(len, s, i, |number|) && s[i..i + |number|] == number {
      TakenIsListed(len, s, i, |number|);
    }
  }

  /** The texts that `re.findall` gives are those that are taken somewhere. */
  lemma FoundAreTaken(s: string, number: string)
    ensures number in FindAll(s) <==> exists i: nat :: TakenAt(s, i, |number|) && s[i..i + |number|] == number
  {
    FindAllIsFindBy(s);
    ListedAreTaken(MatchLength, s, number);
    var matcher := MatchLength;
    assert forall i: nat :: TakenAt(s, i, |number|) <==> TakenBy(matcher, s, i, |number|);
  }

  // ----- Reading character by character -----

  /** What has been read of a number: nothing, an opening, its whole part, or its fraction. */
  datatype Progress = Idle | Opened | InWhole | InFraction

  /** The character goes on with a number of which a digit was read. */
  predicate Extends(q: Progress, c: char) {
    match q
    case InWhole => IsDigitOrComma(c) || c == '.' || c == ')'
    case InFraction => IsDigit(c) || c == ')'
    case _ => false
  }

  function Next(q: Progress, c: char): Progress {
    if IsDigit(c) then (if q == InFraction then InFraction else InWhole)
    else if c == '-' || c == '(' then Opened
    else if q == InWhole && c == ',' then InWhole
    else if q == InWhole && c == '.' then InFraction
    else Idle
  }

  function After(q: Progress, s: string): Progress
    decreases |s|
  {
    if s == "" then q else After(Next(q, s[0]), s[1..])
  }

  lemma {:induction false} AfterAppend(q: Progress, a: string, b: string)
    ensures After(q, a + b) == After(After(q, a), b)
    decreases |a|
  {
    if a == "" {
      assert a + b == b;
    } else {
      assert (a + b)[1..] == a[1..] + b;
      AfterAppend(Next(q, a[0]), a[1..], b);
    }
  }

  /** How much further a number goes; a closing parenthesis ends it. */
  function Rest(q: Progress, s: string): (m: nat)
    ensures m <= |s|
    decreases |s|
  {
    if s == "" || !Extends(q, s[0]) then 0
    else if s[0] == ')' then 1
    else 1 + Rest(Next(q, s[0]), s[1..])
  }

  lemma {:induction false} RestOfFraction(s: string)
    ensures var n := RunLength(s, IsDigit);
            Rest(InFraction, s) == if n < |s| && s[n] == ')' then n + 1 else n
  {
    if s == "" {
    } else if IsDigit(s[0]) {
      RestOfFraction(s[1..]);
    }
  }

  lemma {:induction false} RestOfWhole(s: string)
    ensures var n := RunLength(s, IsDigitOrComma);
            Rest(InWhole, s) == n + FractionLength(s[n..])
  {
    if s == "" {
    } else if IsDigitOrComma(s[0]) {
      RestOfWhole(s[1..]);
      var n := RunLength(s[1..], IsDigitOrComma);
      assert s[1 + n..] == s[1..][n..];
    } else if s[0] == '.' {
      assert s[0..] == s;
      RestOfFraction(s[1..]);
    } else {
      assert s[0..] == s;
    }
  }

  lemma UnsignedIsRest(s: string)
    requires s != "" && IsDigit(s[0])
    ensures UnsignedLength(s) == 1 + Rest(InWhole, s[1..])
  {
    RestOfWhole(s);
  }

  /** Inside a number the reader is not idle and sees no minus; at its end, the next
      character is read as if nothing came before it, and is no digit of the number. */
  ghost predicate ReadsWhole(q: Progress, s: string, m: nat)
    requires m <= |s|
  {
    && (forall k :: 0 <= k < m ==> After(q, s[..k]) != Idle && s[k] != '-')
    && (m < |s| ==> Next(After(q, s[..m]), s[m]) == Next(Idle, s[m]) && (IsDigit(s[m]) ==> After(q, s[..m]) == Idle))
  }

  lemma ReadsOneMore(q: Progress, s: string, m: nat)
    requires 0 < m <= |s| && q != Idle && s[0] != '-'
    requires ReadsWhole(Next(q, s[0]), s[1..], m - 1)
    ensures ReadsWhole(q, s, m)
  {
    forall k | 0 < k <= m ensures After(q, s[..k]) == After(Next(q, s[0]), s[1..][..k - 1]) {
      assert s[..k][1..] == s[1..][..k - 1];
    }
    forall k | 0 <= k < m ensures After(q, s[..k]) != Idle && s[k] != '-' {
      if k > 0 {
        assert s[k] == s[1..][k - 1];
      }
    }
    assert m < |s| ==> s[m] == s[1..][m - 1];
  }

  lemma {:induction false} RestIsRead(q: Progress, s: string)
    requires q == InWhole || q == InFraction
    ensures ReadsWhole(q, s, Rest(q, s))
    decreases |s|
  {
    if s == "" || !Extends(q, s[0]) {
      assert s[..0] == "";
    } else if s[0] == ')' {
      assert s[1..][..0] == "" && After(Idle, "") == Idle;
      ReadsOneMore(q, s, 1);
    } else {
      RestIsRead(Next(q, s[0]), s[1..]);
      ReadsOneMore(q, s, Rest(q, s));
    }
  }

  // ----- Where the scanner comes -----

  /** What the match at the start of a text tells the reader. */
  ghost predicate Agrees(len: string -> nat, s: string)
    requires s != ""
  {
    var m := len(s);
    && m <= |s|
    && (m == 0 ==> !IsDigit(s[0]) && (|s| > 1 && IsDigit(s[1]) ==> Next(Idle, s[0]) == Idle))
    && (forall k :: 0 < k < m ==> After(Idle, s[..k]) != Idle && s[k] != '-')
    && (0 < m < |s| ==> ReadsOn(After(Idle, s[..m]), s[m]))
  }

  /** The character after a number is read as if nothing came before it. */
  predicate ReadsOn(q: Progress, c: char) {
    Next(q, c) == Next(Idle, c) && (IsDigit(c) ==> q == Idle)
  }

  lemma ReadOnAfter(before: string, m: nat)
    requires m < |before| && ReadsOn(After(Idle, before[..m]), before[m])
    ensures After(Idle, before) == After(Idle, before[m..])
  {
    assert before == before[..m] + before[m..];
    AfterAppend(Idle, before[..m], before[m..]);
  }

  lemma SkipOne(before: string)
    requires |before| > 1 && !IsDigit(before[0])
    ensures After(Idle, before) == After(Idle, before[1..])
  {
    assert Next(Next(Idle, before[0]), before[1]) == Next(Idle, before[1]);
  }

  /** The scanner comes to a digit or a minus exactly if the minus, or the digit with
      nothing read before it, starts a number. */
  lemma {:induction false} ArrivesExactly(len: string -> nat, before: string, rest: string)
    requires forall s :: s != "" ==> Agrees(len, s)
    requires rest != "" && (IsDigit(rest[0]) || rest[0] == '-')
    ensures Arrives(len, before + rest, |before|) <==> rest[0] == '-' || After(Idle, before) == Idle
    decreases |before|
  {
    var s := before + rest;
    if before == "" {
      assert s == rest;
    } else {
      var m, n := len(s), Advance(len, s);
      assert Agrees(len, s);
      assert s[|before|] == rest[0] && s[..|before|] == before;
      if n <= |before| {
        assert s[n..] == before[n..] + rest && s[..n] == before[..n];
        ArrivesExactly(len, before[n..], rest);
        if n < |before| {
          assert s[n] == before[n] && (n + 1 < |before| ==> s[n + 1] == before[n + 1]);
          if m > 0 {
            ReadOnAfter(before, n);
          } else {
            SkipOne(before);
          }
        } else {
          assert before[..n] == before;
        }
      }
    }
  }

  // ----- The pattern's matches -----

  lemma FromFirst(s: string, m: nat)
    requires 0 < m <= |s| && ReadsWhole(Next(Idle, s[0]), s[1..], m - 1)
    ensures forall k :: 0 < k < m ==> After(Idle, s[..k]) != Idle && s[k] != '-'
    ensures m < |s| ==> ReadsOn(After(Idle, s[..m]), s[m])
  {
    forall k | 0 < k <= m ensures After(Idle, s[..k]) == After(Next(Idle, s[0]), s[1..][..k - 1]) {
      assert s[..k][1..] == s[1..][..k - 1];
    }
    forall k | 0 < k < m ensures After(Idle, s[..k]) != Idle && s[k] != '-' {
      assert s[k] == s[1..][k - 1];
    }
    assert m < |s| ==> s[m] == s[1..][m - 1];
  }

  lemma UnsignedIsRead(q: Progress, s: string)
    requires q != InFraction && s != "" && IsDigit(s[0])
    ensures ReadsWhole(InWhole, s[1..], UnsignedLength(s) - 1) && Next(q, s[0]) == InWhole
    ensures q == Opened ==> ReadsWhole(Opened, s, UnsignedLength(s))
  {
    UnsignedIsRest(s);
    RestIsRead(InWhole, s[1..]);
    if q == Opened {
      ReadsOneMore(Opened, s, UnsignedLength(s));
    }
  }

  lemma OpeningShape(s: string)
    requires s != ""
    ensures var o := OpeningLength(s);
            && o <= 2
            && (o == 0 ==> s[0] != '-' && s[0] != '(')
            && (o >= 1 ==> s[0] == '-' || s[0] == '(')
            && (o == 2 ==> s[1] == '(')
            && if o < |s| && IsDigit(s[o]) then MatchLength(s) == o + UnsignedLength(s[o..]) else MatchLength(s) == 0
  {
    assert OpeningLength(s) < |s| ==> s[OpeningLength(s)..][0] == s[OpeningLength(s)];
  }

  lemma SignAndParen(s: string, r: nat)
    requires |s| >= 2 && r + 2 <= |s| && s[1] == '(' && ReadsWhole(Opened, s[2..], r)
    ensures ReadsWhole(Opened, s[1..], r + 1)
  {
    assert s[1..][1..] == s[2..];
    ReadsOneMore(Opened, s[1..], r + 1);
  }

  lemma OpenedIsRead(s: string, o: nat, r: nat)
    requires o <= 2 && 0 < r && o + r <= |s|
    requires if o == 0 then Next(Idle, s[0]) == InWhole && ReadsWhole(InWhole, s[1..], r - 1)
             else ReadsWhole(Opened, s[o..], r)
    requires o >= 1 ==> s[0] == '-' || s[0] == '('
    requires o == 2 ==> s[1] == '('
    ensures ReadsWhole(Next(Idle, s[0]), s[1..], o + r - 1)
  {
    if o == 2 {
      SignAndParen(s, r);
    }
  }

  /** A match of r characters, or none, after an opening of o characters. */
  ghost predicate ReadsAfter(s: string, o: nat, r: nat)
    requires s != ""
  {
    && o <= 2 && o + r <= |s|
    && (o == 0 ==> s[0] != '-' && s[0] != '(')
    && (o >= 1 ==> s[0] == '-' || s[0] == '(')
    && (o == 2 ==> s[1] == '(')
    && (r == 0 ==> o < |s| ==> !IsDigit(s[o]))
    && (r > 0 ==> if o == 0 then Next(Idle, s[0]) == InWhole && ReadsWhole(InWhole, s[1..], r - 1)
                  else ReadsWhole(Opened, s[o..], r))
  }

  lemma AgreesAfter(len: string -> nat, s: string, o: nat, r: nat)
    requires s != "" && ReadsAfter(s, o, r) && len(s) == if r > 0 then o + r else 0
    ensures Agrees(len, s)
  {
    if r > 0 {
      OpenedIsRead(s, o, r);
      FromFirst(s, o + r);
    }
  }

  lemma MatchReadsAfter(s: string) returns (o: nat, r: nat)
    requires s != ""
    ensures ReadsAfter(s, o, r) && MatchLength(s) == if r > 0 then o + r else 0
  {
    o, r := OpeningLength(s), 0;
    OpeningShape(s);
    if o < |s| && IsDigit(s[o]) {
      assert s[0..] == s && s[o..][0] == s[o];
      r := UnsignedLength(s[o..]);
      UnsignedIsRead(if o == 0 then Idle else Opened, s[o..]);
    }
  }

  lemma MatchAgrees(s: string)
    requires s != ""
    ensures Agrees(MatchLength, s)
  {
    var o, r := MatchReadsAfter(s);
    AgreesAfter(MatchLength, s, o, r);
  }

  /** A text read to its end goes as far as what follows it does. */
  lemma {:induction false} RestAppend(q: Progress, s: string, after: string)
    requires Rest(q, s) == |s| && ')' !in s
    ensures Rest(q, s + after) == |s| + Rest(After(q, s), after)
    decreases |s|
  {
    if s == "" {
      assert s + after == after;
    } else {
      assert (s + after)[1..] == s[1..] + after;
      RestAppend(Next(q, s[0]), s[1..], after);
    }
  }

  lemma {:induction false} NumeralIsRead(whole: string)
    requires All(whole, IsDigitOrComma)
    ensures Rest(InWhole, whole) == |whole| && After(InWhole, whole) == InWhole
  {
    if whole == "" {
    } else {
      NumeralIsRead(whole[1..]);
    }
  }

  lemma {:induction false} DecimalsAreRead(digits: string)
    requires All(digits, IsDigit)
    ensures Rest(InFraction, digits) == |digits| && After(InFraction, digits) == InFraction
  {
    if digits == "" {
    } else {
      DecimalsAreRead(digits[1..]);
    }
  }

  lemma FractionIsRead(fraction: string)
    requires IsFraction(fraction)
    ensures Rest(InWhole, fraction) == |fraction|
    ensures After(InWhole, fraction) == if fraction == "" then InWhole else InFraction
  {
    if fraction != "" {
      DecimalsAreRead(fraction[1..]);
    }
  }

  /** The digits after the first, and the fraction. */
  lemma BodyIsRead(digits: string, fraction: string)
    requires All(digits, IsDigitOrComma) && IsFraction(fraction)
    ensures var body := digits + fraction;
            Rest(InWhole, body) == |body| && After(InWhole, body) == if fraction == "" then InWhole else InFraction
  {
    NumeralIsRead(digits);
    FractionIsRead(fraction);
    RestAppend(InWhole, digits, fraction);
    AfterAppend(InWhole, digits, fraction);
  }

  lemma NoParen(digits: string, fraction: string)
    requires All(digits, IsDigitOrComma) && IsFraction(fraction)
    ensures ')' !in digits + fraction && ('.' in digits + fraction <==> fraction != "")
  {
    assert fraction != "" ==> (digits + fraction)[|digits|] == '.';
    assert fraction != "" ==> fraction == ['.'] + fraction[1..];
  }

  /** What a rendering leaves the reader in. */
  function EndOf(v: string): Progress {
    if '.' in v then InFraction else InWhole
  }

  lemma UnsignedGoesOn(first: char, body: string, after: string)
    requires IsDigit(first) && Rest(InWhole, body) == |body| && ')' !in body
    ensures UnsignedLength([first] + body + after) == 1 + |body| + Rest(After(InWhole, body), after)
  {
    RestAppend(InWhole, body, after);
    assert ([first] + body + after)[1..] == body + after;
    UnsignedIsRest([first] + body + after);
  }

  lemma PartsInOrder(sign: string, whole: string, fraction: string)
    requires whole != ""
    ensures sign + whole + fraction == sign + ([whole[0]] + (whole[1..] + fraction))
  {
    assert whole == [whole[0]] + whole[1..];
  }

  lemma SignedGoesOn(sign: string, first: char, body: string, after: string)
    requires (sign == "" || sign == "-") && IsDigit(first) && Rest(InWhole, body) == |body| && ')' !in body
    ensures MatchLength(sign + ([first] + body) + after) == |sign| + 1 + |body| + Rest(After(InWhole, body), after)
  {
    UnsignedGoesOn(first, body, after);
    Associate(sign, [first] + body, after);
    MatchOpened(sign, [first] + body + after);
  }

  lemma MatchParts(sign: string, whole: string, fraction: string, after: string)
    requires (sign == "" || sign == "-") && IsNumeral(whole) && IsFraction(fraction)
    ensures var v := sign + whole + fraction;
            MatchLength(v + after) == |v| + Rest(EndOf(v), after)
  {
    var body := whole[1..] + fraction;
    BodyIsRead(whole[1..], fraction);
    NoParen(whole[1..], fraction);
    PartsInOrder(sign, whole, fraction);
    SignedGoesOn(sign, whole[0], body, after);
  }

  lemma RenderingGoesOn(c: int, grouped: bool, after: string)
    ensures var v := Render(c, grouped);
            MatchLength(v + after) == |v| + Rest(EndOf(v), after)
  {
    RenderShape(c, grouped);
    WholeShape(c, grouped);
    MatchParts(Sign(c), Whole(c, grouped), Fraction(c), after);
  }

  // ----- When a written figure is a number of the text -----

  /** No number goes on over the left end of the written figure, or over its right end. A
      minus always starts a number; a digit does where nothing of a number was read. */
  predicate StandsAlone(before: string, v: string, after: string)
    requires v != ""
  {
    && (v[0] == '-' || After(Idle, before) == Idle)
    && (after == "" || !Extends(EndOf(v), after[0]))
  }

  lemma TakenBetween(before: string, v: string, after: string)
    requires v != "" && (IsDigit(v[0]) || v[0] == '-')
    requires MatchLength(v + after) == |v| + Rest(EndOf(v), after)
    ensures TakenAt(before + v + after, |before|, |v|) <==> StandsAlone(before, v, after)
  {
    var text := before + v + after;
    forall s | s != "" ensures Agrees(MatchLength, s) {
      MatchAgrees(s);
    }
    assert text == before + (v + after) && text[|before|..] == v + after && (v + after)[0] == v[0];
    ArrivesExactly(MatchLength, before, v + after);
  }

  /** Every rendering that occurs in any text, anywhere: it is taken whole there, and so
      denotes exactly its amount, if and only if it stands alone. */
  lemma WrittenIsTakenExactly(c: int, grouped: bool, before: string, after: string)
    ensures var v := Render(c, grouped);
            && v != "" && MatchValue(v) == Some(Amount(c))
            && (TakenAt(before + v + after, |before|, |v|) <==> StandsAlone(before, v, after))
  {
    RenderEnds(c, grouped);
    MatchValueOfRendering(c, grouped);
    RenderingGoesOn(c, grouped, after);
    TakenBetween(before, Render(c, grouped), after);
  }

  /** The left end told from the last character before: no digit, minus or opening
      parenthesis, and a comma or point only if it does not follow a whole part. */
  lemma LeftIsFree(front: string, c: char)
    ensures After(Idle, front + [c]) == Idle
            <==> !IsDigit(c) && c != '-' && c != '(' && (c == ',' || c == '.' ==> After(Idle, front) != InWhole)
  {
    AfterAppend(Idle, front, [c]);
    assert After(Next(After(Idle, front), c), [c][1..]) == Next(After(Idle, front), c);
  }

  /** Some amount near the figure is a number of the text: written, and taken whole. */
  ghost predicate States(text: string, raw: real) {
    exists c, v, i: nat :: StatesAt(text, raw, c, v, i) && TakenAt(text, i, |v|)
  }

  /** The search finds amount c for the figure, written as v, at i. */
  predicate StatesAt(text: string, raw: real, c: int, v: string, i: nat) {
    c in PageCents(raw) && v in Renderings(c) && DigitCount(v) >= 2 && OccursAt(v, text, i)
  }

  lemma TextAround(text: string, v: string, i: nat)
    requires i + |v| <= |text| && text[i..i + |v|] == v
    ensures text[..i] + v + text[i + |v|..] == text && |text[..i]| == i
  {}

  lemma OneOfRenderings(c: int, v: string) returns (grouped: bool)
    requires v in Renderings(c)
    ensures v == Render(c, grouped)
  {
    grouped := v == Render(c, true);
  }

  lemma OccurrenceIsTakenExactly(text: string, c: int, v: string, i: nat)
    requires v in Renderings(c) && OccursAt(v, text, i)
    ensures MatchValue(v) == Some(Amount(c)) && v != ""
    ensures TakenAt(text, i, |v|) <==> StandsAlone(text[..i], v, text[i + |v|..])
  {
    TextAround(text, v, i);
    var grouped := OneOfRenderings(c, v);
    WrittenIsTakenExactly(c, grouped, text[..i], text[i + |v|..]);
  }

  lemma SomeOccurrence(v: string, text: string) returns (i: nat)
    requires Occurs(v, text)
    ensures OccursAt(v, text, i)
  {
    i :| 0 <= i <= |text| && OccursAt(v, text, i);
  }

  /** A found figure is a number of the text exactly if one of its occurrences stands alone;
      and the search misses no such number. */
  lemma FoundIsStatedExactly(value: real, scale: Option<string>, text: string)
    ensures var raw := Unscaled(value, scale);
            && (ValueFound(value, scale, text) <==> exists c, v, i: nat :: StatesAt(text, raw, c, v, i))
            && (States(text, raw) <==> exists c, v, i: nat ::
                  StatesAt(text, raw, c, v, i) && v != "" && StandsAlone(text[..i], v, text[i + |v|..]))
  {
    var raw := Unscaled(value, scale);
    forall c, v, i: nat | StatesAt(text, raw, c, v, i)
      ensures v != "" && (TakenAt(text, i, |v|) <==> StandsAlone(text[..i], v, text[i + |v|..]))
      ensures v in Variants(raw) && IsEvidence(v, text)
    {
      OccurrenceIsTakenExactly(text, c, v, i);
      VariantsAreRenderings(raw, v);
    }
    if ValueFound(value, scale, text) {
      var v :| v in Variants(raw) && IsEvidence(v, text);
      VariantsAreRenderings(raw, v);
      var c :| c in PageCents(raw) && v in Renderings(c);
      var i := SomeOccurrence(v, text);
      assert StatesAt(text, raw, c, v, i);
    }
  }

  lemma OneMoreDigit(n: nat, d: nat)
    requires 0 < n && d < 10
    ensures Digits(10 * n + d) == Digits(n) + [DigitChar(d)]
  {}

  lemma OneDigitOut(d: nat)
    requires d < 10
    ensures Digits(d) == [DigitChar(d)]
  {}

  lemma DigitsOut()
    ensures Digits(577) == "577"
  {
    OneDigitOut(5);
    OneMoreDigit(5, 7);
    OneMoreDigit(57, 7);
    assert DigitChar(5) == '5' && DigitChar(7) == '7';
  }

  lemma ShortGroup(s: string)
    requires |s| <= 3
    ensures Group(s) == s
  {}

  lemma WrittenOut()
    ensures Render(57700, true) == "577"
  {
    WholeRendering(577);
    DigitsOut();
    ShortGroup(Digits(577));
    WholeSign(577);
  }

  lemma WholeSign(n: nat)
    ensures Fixed0(n) == Group(Digits(n))
  {}

  lemma EndsWith(front: string, c: char, after: string)
    ensures (front + [c])[|front + [c]| - 1] == c && front + [c] != "" && after + "" == after
  {}

  /** The digit bounds of the search do not see a comma: what a number goes on with after one
      is found, though the scanner does not take it. */
  lemma PartOfANumberIsFound(value: real, scale: Option<string>, c: nat, grouped: bool, front: string, text: string)
    requires Unscaled(value, scale) == Amount(c) && !IsOneDigit(c)
    requires After(Idle, front) == InWhole && text == front + [','] + Render(c, grouped)
    ensures ValueFound(value, scale, text) && !TakenAt(text, |front| + 1, |Render(c, grouped)|)
  {
    EndsWith(front, ',', text);
    WrittenIsFoundExactly(value, scale, c, grouped, front + [','], "");
    LeftIsFree(front, ',');
    RenderingOfNatural(c, grouped);
    WrittenIsTakenExactly(c, grouped, front + [','], "");
  }

  lemma RenderingOfNatural(c: nat, grouped: bool)
    ensures Render(c, grouped) != "" && Render(c, grouped)[0] != '-'
  {
    RenderShape(c, grouped);
    WholeShape(c, grouped);
    assert Sign(c) + Whole(c, grouped) == Whole(c, grouped);
  }

  lemma Unchanged(value: real)
    ensures Unscaled(value, None) == value
  {}

  lemma TextOf1577(v: string)
    requires v == "577"
    ensures "1" + [','] + v == "1,577" && After(Idle, "1") == InWhole
  {
    assert "1"[1..] == "";
  }

  /** For instance 577 in 1,577. */
  lemma PartOf1577()
    ensures ValueFound(577.0, None, "1,577") && !TakenAt("1,577", 2, 3)
  {
    WrittenOut();
    TextOf1577(Render(57700, true));
    Unchanged(577.0);
    PartOfANumberIsFound(577.0, None, 57700, true, "1", "1,577");
  }
}
