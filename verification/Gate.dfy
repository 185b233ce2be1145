/** The grounding gate of eval/gate.py. Scores and figures are exact reals, and the
    cross-encoder is any function from a claim and texts to scores. */
module Gate {
  import opened Basics
  import opened Numbers

  // ----- The answer and what it is checked against (eval/gate_schema.py) -----

  datatype Operand = Operand(value: real, chunk: int)

  datatype Citation = Citation(chunk: int, quote: string)

  datatype Answer = Answer(sufficient: bool, value: Option<real>, unit: Option<string>, scale: Option<string>,
                           operands: seq<Operand>, text: Option<string>, citations: seq<Citation>)

  /** Captured when the answer was generated. A chunk may have a text and no scale. */
  datatype Context = Context(retrieved: set<int>, texts: map<int, string>, scales: map<int, Option<string>>)

  datatype Layer = L1 | L2 | L3

  datatype Margin = Margin(top1: real, top2: Option<real>)

  datatype Settings = Settings(layers: set<Layer>, l3bThreshold: real, l1Margin: Option<Margin>, l1Threshold: real)

  type Reranker = (string, seq<string>) -> seq<real>

  datatype Reason =
    | InsufficientEvidence
    | UnretrievedCitations(chunks: set<int>)
    | OperandCitesUnknownChunk(chunk: int)
    | OperandNotFound(operand: Operand)
    | ValueNotFound(value: real)
    | NoCitations
    | NoCitedText
    | LowSupport(score: real, threshold: real)
    | NoScores
    | LowMargin(margin: real, threshold: real)

  datatype Verdict = Passed | Refused(reason: Reason)

  // ----- L3a: is a figure in a text? -----

  /** `round(x)`, and the rounding of `f"{x:.0f}"`: to nearest, ties to even. */
  function Round(x: real): (n: int)
    ensures -0.5 <= n as real - x <= 0.5
    ensures AbsReal(n as real - x) == 0.5 ==> n % 2 == 0
  {
    var below := x.Floor;
    var rest := x - below as real;
    if rest < 0.5 || (rest == 0.5 && below % 2 == 0) then below else below + 1
  }

  function Cents(x: real): int { Round(x * 100.0) }

  /** The figure as the page shows it. No multiplier is 0, so the fallback is not taken. */
  function Unscaled(value: real, scale: Option<string>): real {
    value / ScaleMultiplier(scale)
  }

  /** `f"{n:,.0f}"` of a whole number. */
  function Fixed0(n: int): string {
    (if n < 0 then "-" else "") + Group(Digits(Abs(n)))
  }

  /** `{raw, round(raw), round(raw, 2)}` */
  function Candidates(raw: real): seq<real> {
    [raw, Round(raw) as real, Amount(Cents(raw))]
  }

  function WithAndWithoutCommas(s: string): set<string> { {s, Remove(s, ',')} }

  /** The four texts that one candidate is searched as. */
  function TextsOf(v: real): set<string> {
    WithAndWithoutCommas(Render(Cents(v), true)) + WithAndWithoutCommas(Fixed0(Round(v)))
  }

  function TextsOfAll(candidates: seq<real>): set<string> {
    if candidates == [] then {}
    else TextsOfAll(candidates[..|candidates| - 1]) + TextsOf(candidates[|candidates| - 1])
  }

  function Variants(raw: real): set<string> {
    TextsOfAll(Candidates(raw))
  }

  function DigitCount(s: string): nat {
    if s == "" then 0 else (if IsDigit(s[0]) then 1 else 0) + DigitCount(s[1..])
  }

  /** `(?<!\d)v(?!\d)` matches at i. */
  predicate OccursAt(v: string, text: string, i: nat) {
    && i + |v| <= |text| && text[i..i + |v|] == v
    && (i > 0 ==> !IsDigit(text[i - 1]))
    && (i + |v| < |text| ==> !IsDigit(text[i + |v|]))
  }

  predicate Occurs(v: string, text: string) {
    exists i :: 0 <= i <= |text| && OccursAt(v, text, i)
  }

  /** One or no digit is too common in a text to be evidence. */
  predicate IsEvidence(v: string, text: string) {
    DigitCount(v) >= 2 && Occurs(v, text)
  }

  predicate ValueFound(value: real, scale: Option<string>, text: string) {
    exists v :: v in Variants(Unscaled(value, scale)) && IsEvidence(v, text)
  }

  method ValueFoundInText(value: real, scale: Option<string>, text: string) returns (found: bool)
    ensures found == ValueFound(value, scale, text)
  {
    var raw := Unscaled(value, scale);
    var candidates := Candidates(raw);
    var variants := RenderAll(candidates);
    found := FindAny(variants, text);
  }

  method RenderAll(candidates: seq<real>) returns (variants: set<string>)
    ensures variants == TextsOfAll(candidates)
  {
    variants := {};
    for k := 0 to |candidates|
      invariant variants == TextsOfAll(candidates[..k])
    {
      variants := variants + WithAndWithoutCommas(Render(Cents(candidates[k]), true));
      variants := variants + WithAndWithoutCommas(Fixed0(Round(candidates[k])));
      assert candidates[..k + 1][..k] == candidates[..k];
    }
    assert candidates[..|candidates|] == candidates;
  }

  method FindAny(variants: set<string>, text: string) returns (found: bool)
    ensures found == exists v :: v in variants && IsEvidence(v, text)
  {
    var rest := variants;
    while rest != {}
      invariant rest <= variants
      invariant forall v :: v in variants - rest ==> !IsEvidence(v, text)
    {
      var v :| v in rest;
      rest := rest - {v};
      if DigitCount(v) < 2 {
        continue;
      }
      if Occurs(v, text) {
        return true;
      }
    }
    return false;
  }

  // ----- The layers -----

  function CitedIds(answer: Answer): set<int> {
    (set c | c in answer.citations :: c.chunk) + (set o | o in answer.operands :: o.chunk)
  }

  function CheckL2(answer: Answer, retrieved: set<int>): Verdict {
    if !answer.sufficient then Refused(InsufficientEvidence)
    else
      var unknown := CitedIds(answer) - retrieved;
      if unknown != {} then Refused(UnretrievedCitations(unknown)) else Passed
  }

  /** `chunk_scale_by_id.get(id)` */
  function ScaleOfChunk(id: int, scales: map<int, Option<string>>): Option<string> {
    if id in scales then scales[id] else None
  }

  /** `a or b` */
  function OrElse(a: Option<string>, b: Option<string>): Option<string> {
    if a.None? || a.value == "" then b else a
  }

  function CheckOperands(operands: seq<Operand>, ctx: Context): (v: Verdict)
    ensures v.Refused? ==> v.reason.OperandCitesUnknownChunk? || v.reason.OperandNotFound?
  {
    if operands == [] then Passed
    else
      var o := operands[0];
      if o.chunk !in ctx.texts then Refused(OperandCitesUnknownChunk(o.chunk))
      else if !ValueFound(o.value, ScaleOfChunk(o.chunk, ctx.scales), ctx.texts[o.chunk]) then
        Refused(OperandNotFound(o))
      else CheckOperands(operands[1..], ctx)
  }

  function CheckValue(value: real, scale: Option<string>, citations: seq<Citation>, ctx: Context): (v: Verdict)
    ensures v.Refused? ==> v.reason == ValueNotFound(value)
  {
    if citations == [] then Refused(ValueNotFound(value))
    else
      var id := citations[0].chunk;
      if id in ctx.texts && ValueFound(value, OrElse(ScaleOfChunk(id, ctx.scales), scale), ctx.texts[id]) then Passed
      else CheckValue(value, scale, citations[1..], ctx)
  }

  function CheckL3a(answer: Answer, ctx: Context): Verdict {
    if answer.operands != [] then CheckOperands(answer.operands, ctx)
    else if answer.value.Some? then CheckValue(answer.value.value, answer.scale, answer.citations, ctx)
    else Passed
  }

  function CitedTexts(citations: seq<Citation>, texts: map<int, string>): seq<string> {
    if citations == [] then []
    else (if citations[0].chunk in texts then [texts[citations[0].chunk]] else []) + CitedTexts(citations[1..], texts)
  }

  function Best(scores: seq<real>): (best: real)
    requires scores != []
    ensures best in scores && forall x :: x in scores ==> x <= best
  {
    if |scores| == 1 then scores[0]
    else
      var best := Best(scores[1..]);
      assert scores == [scores[0]] + scores[1..];
      if scores[0] > best then scores[0] else best
  }

  predicate HasText(answer: Answer) {
    answer.text.Some? && answer.text.value != ""
  }

  function CheckL3b(answer: Answer, texts: map<int, string>, rerank: Reranker, threshold: real): Verdict {
    if !HasText(answer) then Passed
    else if answer.citations == [] then Refused(NoCitations)
    else
      var cited := CitedTexts(answer.citations, texts);
      if cited == [] then Refused(NoCitedText)
      else
        var scores := rerank(answer.text.value, cited);
        var best := if scores != [] then Best(scores) else 0.0;
        if best < threshold then Refused(LowSupport(best, threshold)) else Passed
  }

  function MarginOf(m: Margin): real {
    m.top1 - (if m.top2.Some? then m.top2.value else 0.0)
  }

  function CheckL1(m: Option<Margin>, threshold: real): Verdict {
    if m.None? then Refused(NoScores)
    else if MarginOf(m.value) < threshold then Refused(LowMargin(MarginOf(m.value), threshold))
    else Passed
  }

  /** The requested layers in order, up to the first that refuses. */
  function ApplyGate(answer: Answer, ctx: Context, rerank: Reranker, s: Settings): Verdict {
    var l1 := if L1 in s.layers then CheckL1(s.l1Margin, s.l1Threshold) else Passed;
    if l1.Refused? then l1
    else
      var l2 := if L2 in s.layers then CheckL2(answer, ctx.retrieved) else Passed;
      if l2.Refused? then l2
      else if L3 !in s.layers then Passed
      else
        var l3a := CheckL3a(answer, ctx);
        if l3a.Refused? then l3a else CheckL3b(answer, ctx.texts, rerank, s.l3bThreshold)
  }
}
