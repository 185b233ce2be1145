/** What a pass of the grounding gate means, when it is given, and how it depends on the
    layers and thresholds. */
module GateSafety {
  import opened Basics
  import opened Numbers
  import opened NumberRoundTrip
  import opened Gate

  // ----- The texts searched are renderings of amounts near the figure -----

  /** The amounts whose renderings are searched for. The last is rounded twice. */
  function PageCents(raw: real): set<int> {
    {Cents(raw), 100 * Round(raw), 100 * Round(Amount(Cents(raw)))}
  }

  lemma RoundWhole(n: int)
    ensures Round(n as real) == n && Cents(n as real) == 100 * n
  {
    assert n as real * 100.0 == (100 * n) as real;
  }

  lemma RoundCents(c: int)
    ensures Cents(Amount(c)) == c
  {
    assert Amount(c) * 100.0 == c as real;
  }

  lemma WholeRendering(n: int)
    ensures Fixed0(n) == Render(100 * n, true)
  {
    RenderShape(100 * n, true);
    assert Abs(100 * n) / 100 == Abs(n) && Abs(100 * n) % 100 == 0;
    assert Fraction(100 * n) == "";
  }

  lemma UngroupedRendering(c: int)
    ensures Remove(Render(c, true), ',') == Render(c, false)
  {
    RemoveCommas(c, true);
    RenderShape(c, false);
    Associate(Sign(c), Digits(Abs(c) / 100), Fraction(c));
  }

  function Renderings(c: int): set<string> { {Render(c, true), Render(c, false)} }

  lemma TextsOfCandidate(v: real)
    ensures TextsOf(v) == Renderings(Cents(v)) + Renderings(100 * Round(v))
  {
    WholeRendering(Round(v));
    UngroupedRendering(Cents(v));
    UngroupedRendering(100 * Round(v));
  }

  lemma VariantsInFull(raw: real)
    ensures Variants(raw) == TextsOf(raw) + TextsOf(Round(raw) as real) + TextsOf(Amount(Cents(raw)))
  {
    var c := Candidates(raw);
    assert c[..2][..1] == c[..1] && c[..1][..0] == [];
    assert TextsOfAll(c[..1]) == TextsOf(raw);
    assert TextsOfAll(c[..2]) == TextsOf(raw) + TextsOf(Round(raw) as real);
  }

  lemma VariantsListed(raw: real)
    ensures Variants(raw) == Renderings(Cents(raw)) + Renderings(100 * Round(raw))
                             + Renderings(100 * Round(Amount(Cents(raw))))
  {
    VariantsInFull(raw);
    TextsOfCandidate(raw);
    TextsOfCandidate(Round(raw) as real);
    TextsOfCandidate(Amount(Cents(raw)));
    RoundWhole(Round(raw));
    RoundCents(Cents(raw));
  }

  lemma InUnion(f: int -> set<string>, ks: set<int>, a: int, b: int, c: int, v: string)
    requires ks == {a, b, c}
    ensures v in f(a) + f(b) + f(c) <==> exists k :: k in ks && v in f(k)
  {}

  /** The texts searched for are the renderings of these amounts, and no other text. */
  lemma VariantsAreRenderings(raw: real, v: string)
    ensures v in Variants(raw) <==> exists c :: c in PageCents(raw) && v in Renderings(c)
  {
    VariantsListed(raw);
    InUnion(Renderings, PageCents(raw), Cents(raw), 100 * Round(raw), 100 * Round(Amount(Cents(raw))), v);
  }

  predicate Near(x: real, y: real, distance: real) {
    -distance <= x - y <= distance
  }

  /** Rounding to cents and then to a whole adds both errors, and no more. */
  lemma PageCentsAreNear(raw: real, c: int)
    requires c in PageCents(raw)
    ensures Near(Amount(c), raw, 0.505)
  {
    assert Near(Amount(Cents(raw)), raw, 0.005);
    forall n: int ensures Amount(100 * n) == n as real {}
  }

  /** No smaller distance bounds it: 13.496 (e is 0.001) is searched as 14, and so is every
      amount from 13.495 on. */
  lemma PageCentsAreNoNearer(e: real)
    requires 0.0 <= e <= 0.005
    ensures 1400 in PageCents(13.495 + e) && Amount(1400) - (13.495 + e) == 0.505 - e
  {
    assert Cents(13.495 + e) == 1350;
    assert Round(13.5) == 14;
  }

  // ----- A found figure is on the page -----

  /** Some amount near the figure is written in the text, with no digit on either side,
      and the written text alone is read back as that amount. */
  ghost predicate Shows(text: string, raw: real) {
    exists c, v :: c in PageCents(raw) && ShowsAs(text, raw, c, v)
  }

  /** The text has v in it, with no digit right before or after it. */
  ghost predicate Undivided(v: string, text: string) {
    exists before, after :: text == before + v + after && NoDigitBeside(before, after)
  }

  predicate NoDigitBeside(before: string, after: string) {
    (before == "" || !IsDigit(before[|before| - 1])) && (after == "" || !IsDigit(after[0]))
  }

  lemma OccursUndivided(v: string, text: string)
    ensures Occurs(v, text) <==> Undivided(v, text)
  {
    if i :| 0 <= i <= |text| && OccursAt(v, text, i) {
      var before, after := text[..i], text[i + |v|..];
      assert text == before + v + after && NoDigitBeside(before, after);
    }
    if before, after :| text == before + v + after && NoDigitBeside(before, after) {
      OccursBetween(v, before, after);
    }
  }

  ghost predicate ShowsAs(text: string, raw: real, c: int, v: string) {
    && v in Renderings(c) && DigitCount(v) >= 2 && Undivided(v, text)
    && Near(Amount(c), raw, 0.505)
    && Normalize(v) == Some(NormalizedNumber(Amount(c), false))
  }

  lemma FoundIsShown(raw: real, text: string, v: string)
    requires v in Variants(raw) && IsEvidence(v, text)
    ensures Shows(text, raw)
  {
    VariantsAreRenderings(raw, v);
    var c :| c in PageCents(raw) && v in Renderings(c);
    PageCentsAreNear(raw, c);
    NormalizeRendering(c, true);
    NormalizeRendering(c, false);
    OccursUndivided(v, text);
    assert ShowsAs(text, raw, c, v);
  }

  /** The search finds a figure exactly if the text shows it. */
  lemma ValueFoundExactly(value: real, scale: Option<string>, text: string)
    ensures ValueFound(value, scale, text) <==> Shows(text, Unscaled(value, scale))
  {
    var raw := Unscaled(value, scale);
    if ValueFound(value, scale, text) {
      var v :| v in Variants(raw) && IsEvidence(v, text);
      FoundIsShown(raw, text, v);
    }
    if Shows(text, raw) {
      var c, v :| c in PageCents(raw) && ShowsAs(text, raw, c, v);
      OccursUndivided(v, text);
      VariantsAreRenderings(raw, v);
    }
  }

  lemma Times(x: real, y: real, m: real)
    requires x <= y && m >= 0.0
    ensures x * m <= y * m
  {}

  lemma AbsTimes(x: real, m: real)
    requires m >= 0.0
    ensures AbsReal(x * m) == AbsReal(x) * m
  {}

  lemma WithinOnePercent(a: real, b: real, distance: real, size: real)
    requires AbsReal(a - b) == distance && AbsReal(b) == size && distance <= 0.01 * size
    ensures NumbersMatch(a, b)
  {
    MatchIsWithinOnePercent(a, b);
  }

  lemma Distribute(a: real, b: real, m: real)
    ensures a * m - b * m == (a - b) * m
  {}

  lemma ScaledApart(d: real, b: real, m: real)
    requires m >= 1.0 && AbsReal(d) <= 0.01 * AbsReal(b)
    ensures AbsReal(d * m) <= 0.01 * AbsReal(b * m)
  {
    AbsTimes(d, m);
    AbsTimes(b, m);
    Times(AbsReal(d), 0.01 * AbsReal(b), m);
  }

  lemma ScaledUp(a: real, b: real, m: real, x: real, y: real)
    requires m >= 1.0 && Near(a, b, 0.505) && AbsReal(b) >= 50.5 && x == a * m && y == b * m
    ensures NumbersMatch(x, y)
  {
    Distribute(a, b, m);
    ScaledApart(a - b, b, m);
    WithinOnePercent(x, y, AbsReal((a - b) * m), AbsReal(b * m));
  }

  lemma DividedBack(x: real, m: real)
    requires m >= 1.0
    ensures x / m * m == x
  {}

  lemma SearchedMatch(amounts: set<int>, raw: real, m: real, value: real)
    requires forall c :: c in amounts ==> Near(Amount(c), raw, 0.505)
    requires m >= 1.0 && AbsReal(raw) >= 50.5 && raw == value / m
    ensures forall c :: c in amounts ==> NumbersMatch(Amount(c) * m, value)
  {
    DividedBack(value, m);
    forall c | c in amounts ensures NumbersMatch(Amount(c) * m, value) {
      ScaledUp(Amount(c), raw, m, Amount(c) * m, value);
    }
  }

  lemma AllSearchedAreNear(raw: real)
    ensures forall c :: c in PageCents(raw) ==> Near(Amount(c), raw, 0.505)
  {
    forall c | c in PageCents(raw) ensures Near(Amount(c), raw, 0.505) {
      PageCentsAreNear(raw, c);
    }
  }

  /** Gate and grading agree: every amount that is searched for a figure of 50.5 or more, in
      the scale of the page, matches the value to within the one percent of numbers_match. */
  lemma NearFiguresMatch(value: real, scale: Option<string>)
    requires AbsReal(Unscaled(value, scale)) >= 50.5
    ensures forall c :: c in PageCents(Unscaled(value, scale)) ==>
              NumbersMatch(Amount(c) * ScaleMultiplier(scale), value)
  {
    AllSearchedAreNear(Unscaled(value, scale));
    SearchedMatch(PageCents(Unscaled(value, scale)), Unscaled(value, scale), ScaleMultiplier(scale), value);
  }

  // ----- What a pass means, exactly -----

  /** The chunk that the operand cites shows it, in the scale stored for that chunk. */
  ghost predicate OperandShown(o: Operand, ctx: Context) {
    && o.chunk in ctx.texts
    && Shows(ctx.texts[o.chunk], Unscaled(o.value, if o.chunk in ctx.scales then ctx.scales[o.chunk] else None))
  }

  /** The cited chunk shows the value, in the scale stored for the chunk, or else in that of
      the answer. */
  ghost predicate ValueShown(value: real, scale: Option<string>, c: Citation, ctx: Context) {
    && c.chunk in ctx.texts
    && var stored := if c.chunk in ctx.scales then ctx.scales[c.chunk] else None;
       Shows(ctx.texts[c.chunk], Unscaled(value, if stored.Some? && stored.value != "" then stored else scale))
  }

  /** Every operand is shown by its own cited chunk; without operands, some cited chunk
      shows the value, if there is one. */
  ghost predicate Grounded(answer: Answer, ctx: Context) {
    if answer.operands != [] then forall o :: o in answer.operands ==> OperandShown(o, ctx)
    else answer.value.Some? ==>
           exists c :: c in answer.citations && ValueShown(answer.value.value, answer.scale, c, ctx)
  }

  lemma OperandFoundExactly(o: Operand, ctx: Context)
    requires o.chunk in ctx.texts
    ensures ValueFound(o.value, ScaleOfChunk(o.chunk, ctx.scales), ctx.texts[o.chunk]) <==> OperandShown(o, ctx)
  {
    ValueFoundExactly(o.value, ScaleOfChunk(o.chunk, ctx.scales), ctx.texts[o.chunk]);
  }

  lemma {:induction false} OperandsPassExactly(operands: seq<Operand>, ctx: Context)
    ensures CheckOperands(operands, ctx).Passed? <==> forall o :: o in operands ==> OperandShown(o, ctx)
  {
    if operands == [] {
    } else {
      var o := operands[0];
      assert operands == [o] + operands[1..];
      OperandsPassExactly(operands[1..], ctx);
      assert o in operands;
      if o.chunk in ctx.texts {
        OperandFoundExactly(o, ctx);
      } else {
        assert !OperandShown(o, ctx);
      }
    }
  }

  predicate CitationFound(value: real, scale: Option<string>, c: Citation, ctx: Context) {
    && c.chunk in ctx.texts
    && ValueFound(value, OrElse(ScaleOfChunk(c.chunk, ctx.scales), scale), ctx.texts[c.chunk])
  }

  lemma CitationFoundExactly(value: real, scale: Option<string>, c: Citation, ctx: Context)
    ensures CitationFound(value, scale, c, ctx) <==> ValueShown(value, scale, c, ctx)
  {
    if c.chunk in ctx.texts {
      ValueFoundExactly(value, OrElse(ScaleOfChunk(c.chunk, ctx.scales), scale), ctx.texts[c.chunk]);
    }
  }

  lemma {:induction false} ValuePassesExactly(value: real, scale: Option<string>, citations: seq<Citation>,
                                              ctx: Context)
    ensures CheckValue(value, scale, citations, ctx).Passed?
            <==> exists c :: c in citations && ValueShown(value, scale, c, ctx)
  {
    if citations == [] {
    } else {
      var c := citations[0];
      assert citations == [c] + citations[1..];
      assert c in citations;
      CitationFoundExactly(value, scale, c, ctx);
      assert CheckValue(value, scale, citations, ctx).Passed?
             <==> CitationFound(value, scale, c, ctx) || CheckValue(value, scale, citations[1..], ctx).Passed?;
      ValuePassesExactly(value, scale, citations[1..], ctx);
    }
  }

  lemma FiguresPassExactly(answer: Answer, ctx: Context)
    ensures CheckL3a(answer, ctx).Passed? <==> Grounded(answer, ctx)
  {
    OperandsPassExactly(answer.operands, ctx);
    if answer.value.Some? {
      ValuePassesExactly(answer.value.value, answer.scale, answer.citations, ctx);
    }
  }

  /** A score for each text, as the reranker promises. */
  ghost predicate ScoresEach(rerank: Reranker) {
    forall claim, texts :: |rerank(claim, texts)| == |texts|
  }

  /** A claim in prose needs a cited text that is scored high enough. */
  ghost predicate Supported(answer: Answer, texts: map<int, string>, rerank: Reranker, threshold: real)
    requires ScoresEach(rerank)
  {
    answer.text.Some? && answer.text.value != "" ==>
      var cited := CitedTexts(answer.citations, texts);
      exists i :: 0 <= i < |cited| && rerank(answer.text.value, cited)[i] >= threshold
  }

  /** The texts that the prose is scored against: those of the citations, in order, as far
      as they are known. */
  lemma {:induction false} CitedTextsInOrder(front: seq<Citation>, c: Citation, texts: map<int, string>)
    ensures CitedTexts([], texts) == []
    ensures CitedTexts(front + [c], texts)
            == CitedTexts(front, texts) + (if c.chunk in texts then [texts[c.chunk]] else [])
  {
    if front == [] {
      assert front + [c] == [c] && [c][1..] == [];
    } else {
      assert (front + [c])[1..] == front[1..] + [c];
      CitedTextsInOrder(front[1..], c, texts);
    }
  }

  lemma ProsePassesExactly(answer: Answer, texts: map<int, string>, rerank: Reranker, threshold: real)
    requires ScoresEach(rerank)
    ensures CheckL3b(answer, texts, rerank, threshold).Passed? <==> Supported(answer, texts, rerank, threshold)
  {
    if HasText(answer) {
      var cited := CitedTexts(answer.citations, texts);
      if cited != [] {
        var scores := rerank(answer.text.value, cited);
        assert |scores| == |cited|;
        assert forall i :: 0 <= i < |scores| ==> scores[i] in scores;
      }
    }
  }

  predicate CitesOnly(answer: Answer, ids: set<int>) {
    && (forall c :: c in answer.citations ==> c.chunk in ids)
    && (forall o :: o in answer.operands ==> o.chunk in ids)
  }

  lemma CitedIdsWithin(answer: Answer, ids: set<int>)
    ensures CitedIds(answer) <= ids <==> CitesOnly(answer, ids)
  {
    if CitedIds(answer) <= ids {
      assert forall c :: c in answer.citations ==> c.chunk in CitedIds(answer);
      assert forall o :: o in answer.operands ==> o.chunk in CitedIds(answer);
    }
  }

  /** The gate passes an answer exactly if every requested layer's promise holds. */
  ghost predicate Trustworthy(answer: Answer, ctx: Context, rerank: Reranker, s: Settings)
    requires ScoresEach(rerank)
  {
    && (L1 in s.layers ==>
          && s.l1Margin.Some?
          && var m := s.l1Margin.value; m.top1 - (if m.top2.Some? then m.top2.value else 0.0) >= s.l1Threshold)
    && (L2 in s.layers ==> answer.sufficient && CitesOnly(answer, ctx.retrieved))
    && (L3 in s.layers ==> Grounded(answer, ctx) && Supported(answer, ctx.texts, rerank, s.l3bThreshold))
  }

  lemma GatePassesExactly(answer: Answer, ctx: Context, rerank: Reranker, s: Settings)
    requires ScoresEach(rerank)
    ensures ApplyGate(answer, ctx, rerank, s).Passed? <==> Trustworthy(answer, ctx, rerank, s)
  {
    var unknown := CitedIds(answer) - ctx.retrieved;
    assert unknown == {} <==> CitedIds(answer) <= ctx.retrieved by {
      assert forall id :: id in CitedIds(answer) && id !in ctx.retrieved ==> id in unknown;
    }
    CitedIdsWithin(answer, ctx.retrieved);
    FiguresPassExactly(answer, ctx);
    ProsePassesExactly(answer, ctx.texts, rerank, s.l3bThreshold);
  }

  // ----- What a refusal says -----

  predicate Cites(answer: Answer, id: int) {
    (exists c :: c in answer.citations && c.chunk == id) || (exists o :: o in answer.operands && o.chunk == id)
  }

  /** The reason is true of the answer, and its layer was asked for. */
  ghost predicate Justified(reason: Reason, answer: Answer, ctx: Context, rerank: Reranker, s: Settings)
    requires ScoresEach(rerank)
  {
    match reason
    case NoScores => L1 in s.layers && s.l1Margin.None?
    case LowMargin(margin, threshold) =>
      && L1 in s.layers && s.l1Margin.Some? && threshold == s.l1Threshold && margin < threshold
      && var m := s.l1Margin.value; margin == m.top1 - (if m.top2.Some? then m.top2.value else 0.0)
    case InsufficientEvidence => L2 in s.layers && !answer.sufficient
    case UnretrievedCitations(ids) =>
      && L2 in s.layers && ids != {}
      && forall id :: id in ids <==> Cites(answer, id) && id !in ctx.retrieved
    case OperandCitesUnknownChunk(id) =>
      L3 in s.layers && id !in ctx.texts && exists o :: o in answer.operands && o.chunk == id
    case OperandNotFound(o) =>
      L3 in s.layers && o in answer.operands && o.chunk in ctx.texts && !OperandShown(o, ctx)
    case ValueNotFound(value) =>
      && L3 in s.layers && answer.operands == [] && answer.value == Some(value)
      && forall c :: c in answer.citations ==> !ValueShown(value, answer.scale, c, ctx)
    case NoCitations => L3 in s.layers && HasText(answer) && answer.citations == []
    case NoCitedText =>
      && L3 in s.layers && HasText(answer) && answer.citations != []
      && forall c :: c in answer.citations ==> c.chunk !in ctx.texts
    case LowSupport(best, threshold) =>
      && L3 in s.layers && HasText(answer) && threshold == s.l3bThreshold && best < threshold
      && var cited := CitedTexts(answer.citations, ctx.texts);
         var scores := rerank(answer.text.value, cited);
         (forall i :: 0 <= i < |cited| ==> scores[i] <= best) && exists i :: 0 <= i < |cited| && scores[i] == best
  }

  lemma CitedIsCites(answer: Answer, id: int)
    ensures id in CitedIds(answer) <==> Cites(answer, id)
  {}

  lemma {:induction false} OperandRefusalIsTrue(operands: seq<Operand>, ctx: Context)
    requires CheckOperands(operands, ctx).Refused?
    ensures var reason := CheckOperands(operands, ctx).reason;
            || (reason.OperandNotFound? && reason.operand in operands && reason.operand.chunk in ctx.texts
                && !OperandShown(reason.operand, ctx))
            || (reason.OperandCitesUnknownChunk? && reason.chunk !in ctx.texts
                && exists o :: o in operands && o.chunk == reason.chunk)
  {
    var o := operands[0];
    assert o in operands && forall p :: p in operands[1..] ==> p in operands;
    if o.chunk in ctx.texts {
      OperandFoundExactly(o, ctx);
      if ValueFound(o.value, ScaleOfChunk(o.chunk, ctx.scales), ctx.texts[o.chunk]) {
        OperandRefusalIsTrue(operands[1..], ctx);
      }
    }
  }

  lemma {:induction false} NothingCited(citations: seq<Citation>, texts: map<int, string>)
    ensures CitedTexts(citations, texts) == [] <==> forall c :: c in citations ==> c.chunk !in texts
  {
    if citations == [] {
    } else {
      assert citations[0] in citations && forall c :: c in citations[1..] ==> c in citations;
      assert citations == [citations[0]] + citations[1..];
      NothingCited(citations[1..], texts);
    }
  }

  lemma ProseRefusalIsTrue(answer: Answer, ctx: Context, rerank: Reranker, s: Settings)
    requires ScoresEach(rerank) && L3 in s.layers
    requires CheckL3b(answer, ctx.texts, rerank, s.l3bThreshold).Refused?
    ensures Justified(CheckL3b(answer, ctx.texts, rerank, s.l3bThreshold).reason, answer, ctx, rerank, s)
  {
    NothingCited(answer.citations, ctx.texts);
    var cited := CitedTexts(answer.citations, ctx.texts);
    if answer.citations != [] && cited != [] {
      var scores := rerank(answer.text.value, cited);
      assert |scores| == |cited| && forall i :: 0 <= i < |scores| ==> scores[i] in scores;
      var i :| 0 <= i < |scores| && scores[i] == Best(scores);
    }
  }

  lemma FigureRefusalIsTrue(answer: Answer, ctx: Context, rerank: Reranker, s: Settings)
    requires ScoresEach(rerank) && L3 in s.layers && CheckL3a(answer, ctx).Refused?
    ensures Justified(CheckL3a(answer, ctx).reason, answer, ctx, rerank, s)
  {
    if answer.operands != [] {
      OperandRefusalIsTrue(answer.operands, ctx);
    } else {
      ValuePassesExactly(answer.value.value, answer.scale, answer.citations, ctx);
    }
  }

  /** Whatever reason the gate gives for a refusal is true. */
  lemma RefusalIsJustified(answer: Answer, ctx: Context, rerank: Reranker, s: Settings)
    requires ScoresEach(rerank) && ApplyGate(answer, ctx, rerank, s).Refused?
    ensures Justified(ApplyGate(answer, ctx, rerank, s).reason, answer, ctx, rerank, s)
  {
    var reason := ApplyGate(answer, ctx, rerank, s).reason;
    if reason.UnretrievedCitations? {
      forall id ensures id in CitedIds(answer) <==> Cites(answer, id) {
        CitedIsCites(answer, id);
      }
    }
    if L3 in s.layers && CheckL3a(answer, ctx).Refused? {
      FigureRefusalIsTrue(answer, ctx, rerank, s);
    } else if L3 in s.layers && CheckL3b(answer, ctx.texts, rerank, s.l3bThreshold).Refused? {
      ProseRefusalIsTrue(answer, ctx, rerank, s);
    }
  }

  // ----- Which figures can be found -----

  lemma ExactCents(c: int, scale: Option<string>)
    ensures Unscaled(Amount(c) * ScaleMultiplier(scale), scale) == Amount(c)
    ensures c in PageCents(Amount(c))
  {
    Divides(Amount(c), ScaleMultiplier(scale));
    RoundCents(c);
  }

  lemma Divides(x: real, m: real)
    requires m >= 1.0
    ensures x * m / m == x
  {}

  lemma OccursBetween(v: string, before: string, after: string)
    requires before == "" || !IsDigit(before[|before| - 1])
    requires after == "" || !IsDigit(after[0])
    ensures Occurs(v, before + v + after)
  {
    var text := before + v + after;
    assert text[|before|..|before| + |v|] == v;
    assert before != "" ==> text[|before| - 1] == before[|before| - 1];
    assert after != "" ==> text[|before| + |v|] == after[0];
    assert OccursAt(v, text, |before|);
  }

  /** A figure of two or more digits that the page writes in full is always found, however
      large, in thousands, millions or plain, with or without commas. */
  lemma WrittenFigureIsFound(c: int, grouped: bool, scale: Option<string>, before: string, after: string)
    requires DigitCount(Render(c, grouped)) >= 2
    requires before == "" || !IsDigit(before[|before| - 1])
    requires after == "" || !IsDigit(after[0])
    ensures ValueFound(Amount(c) * ScaleMultiplier(scale), scale, before + Render(c, grouped) + after)
  {
    var v := Render(c, grouped);
    ExactCents(c, scale);
    VariantsAreRenderings(Amount(c), v);
    OccursBetween(v, before, after);
  }

  /** A whole figure of one digit is never found, whatever the text. */
  lemma SingleDigitIsNeverFound(n: int, scale: Option<string>, text: string)
    requires -10 < n < 10
    ensures !ValueFound(n as real * ScaleMultiplier(scale), scale, text)
  {
    Divides(n as real, ScaleMultiplier(scale));
    RoundWhole(n);
    assert Amount(100 * n) == n as real;
    assert PageCents(n as real) == {100 * n};
    SingleDigit(n);
    forall v | v in Variants(n as real) ensures !IsEvidence(v, text) {
      VariantsAreRenderings(n as real, v);
    }
  }

  lemma OneDigit(d: char)
    ensures DigitCount([d]) < 2 && DigitCount(['-', d]) < 2
  {
    assert ['-', d][1..] == [d] && [d][1..] == "";
  }

  lemma SingleDigit(n: int)
    requires -10 < n < 10
    ensures forall v :: v in Renderings(100 * n) ==> DigitCount(v) < 2
  {
    UngroupedRendering(100 * n);
    WholeRendering(n);
    var d := DigitChar(Abs(n));
    assert Digits(Abs(n)) == [d];
    assert Fixed0(n) == if n < 0 then ['-', d] else [d];
    RemoveNothing(Fixed0(n), ',');
    OneDigit(d);
  }

  // ----- More checks never let more through -----

  predicate Stricter(s: Settings, t: Settings) {
    && s.layers <= t.layers && s.l1Margin == t.l1Margin
    && s.l1Threshold <= t.l1Threshold && s.l3bThreshold <= t.l3bThreshold
  }

  lemma StricterNeverPassesMore(answer: Answer, ctx: Context, rerank: Reranker, s: Settings, t: Settings)
    requires Stricter(s, t)
    requires ApplyGate(answer, ctx, rerank, t).Passed?
    ensures ApplyGate(answer, ctx, rerank, s).Passed?
  {
    assert L1 in s.layers ==> CheckL1(s.l1Margin, s.l1Threshold).Passed?;
    assert L2 in s.layers ==> CheckL2(answer, ctx.retrieved).Passed?;
  }
}
