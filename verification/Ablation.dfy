/** The ablation table and the risk-coverage sweep of eval/ablation.py, over stored records.
    Rates, margins and areas are exact reals. */
module Ablation {
  import opened Basics
  import opened Numbers
  import opened Gate
  import GateSafety
  import opened Replay
  import opened Sorting

  // ----- Grading (`grade_one`, `summarize_config`) -----

  /** One way of reading the stored records. */
  datatype Config = Config(layers: set<Layer>, l3bThreshold: real, l1Threshold: real)

  /** A record of the answerable split and its gold value. */
  datatype Case = Case(record: Record, gold: real)

  predicate HasContent(answer: Answer) {
    answer.value.Some? || HasText(answer)
  }

  predicate Answers(r: Record, rerank: Reranker, c: Config) {
    Decide(r, rerank, c.layers, c.l3bThreshold, c.l1Threshold).Passed? && HasContent(r.answer)
  }

  predicate Correct(k: Case, rerank: Reranker, c: Config) {
    && Answers(k.record, rerank, c)
    && k.record.answer.value.Some? && NumbersMatch(k.gold, k.record.answer.value.value)
  }

  function Records(cases: seq<Case>): seq<Record> {
    seq(|cases|, i requires 0 <= i < |cases| => cases[i].record)
  }

  function CountAnswered(rs: seq<Record>, rerank: Reranker, c: Config): (n: nat)
    ensures n <= |rs|
  {
    if rs == [] then 0
    else CountAnswered(rs[..|rs| - 1], rerank, c) + (if Answers(rs[|rs| - 1], rerank, c) then 1 else 0)
  }

  function CountCorrect(cases: seq<Case>, rerank: Reranker, c: Config): nat {
    if cases == [] then 0
    else CountCorrect(cases[..|cases| - 1], rerank, c) + (if Correct(cases[|cases| - 1], rerank, c) then 1 else 0)
  }

  /** `k / n if n else 0.0` */
  function Rate(k: int, n: nat): real {
    if n == 0 then 0.0 else k as real / n as real
  }

  function Coverage(rs: seq<Record>, rerank: Reranker, c: Config): real {
    Rate(CountAnswered(rs, rerank, c), |rs|)
  }

  datatype Summary = Summary(coverage: real, accuracyOnAnswered: real, accuracyOverall: real)

  function Summarize(cases: seq<Case>, rerank: Reranker, c: Config): Summary {
    SummaryOf(CountCorrect(cases, rerank, c), CountAnswered(Records(cases), rerank, c), |cases|)
  }

  function SummaryOf(correct: nat, answered: nat, n: nat): Summary {
    Summary(Rate(answered, n), Rate(correct, answered), Rate(correct, n))
  }

  lemma RecordsOf(cases: seq<Case>)
    requires cases != []
    ensures Records(cases) == Records(cases[..|cases| - 1]) + [cases[|cases| - 1].record]
  {}

  lemma {:induction false} CorrectIsAnswered(cases: seq<Case>, rerank: Reranker, c: Config)
    ensures CountCorrect(cases, rerank, c) <= CountAnswered(Records(cases), rerank, c)
  {
    if cases == [] {
    } else {
      var front := cases[..|cases| - 1];
      CorrectIsAnswered(front, rerank, c);
      RecordsOf(cases);
      assert Records(cases)[..|cases| - 1] == Records(front);
    }
  }

  lemma RateIsFraction(k: nat, n: nat)
    requires k <= n
    ensures 0.0 <= Rate(k, n) <= 1.0
    ensures Rate(k, n) * n as real == k as real
  {}

  lemma Rates(k: nat, m: nat, n: nat)
    requires k <= m <= n
    ensures Rate(k, n) == Rate(m, n) * Rate(k, m)
    ensures 0.0 <= Rate(m, n) <= 1.0 && 0.0 <= Rate(k, m) <= 1.0
  {
    RateIsFraction(m, n);
    RateIsFraction(k, m);
    if m > 0 {
      assert k as real == m as real * Rate(k, m);
    }
  }

  predicate Consistent(s: Summary) {
    && 0.0 <= s.coverage <= 1.0 && 0.0 <= s.accuracyOnAnswered <= 1.0
    && s.accuracyOverall == s.coverage * s.accuracyOnAnswered
  }

  /** The three figures of the table are rates, and the overall accuracy is the accuracy
      on what was answered times how much was answered. */
  lemma SummaryIsConsistent(cases: seq<Case>, rerank: Reranker, c: Config)
    ensures Consistent(Summarize(cases, rerank, c))
  {
    CorrectIsAnswered(cases, rerank, c);
    CountsAreConsistent(CountCorrect(cases, rerank, c), CountAnswered(Records(cases), rerank, c), |cases|);
  }

  lemma CountsAreConsistent(correct: nat, answered: nat, n: nat)
    requires correct <= answered <= n
    ensures Consistent(SummaryOf(correct, answered, n))
  {
    Rates(correct, answered, n);
  }

  // ----- The sweep -----

  const SWEPT: set<Layer> := {L1, L2, L3}
  const PLAIN: set<Layer> := {L2, L3}
  const DEFAULT_L3B_THRESHOLD := 0.0
  const BELOW_ALL := 0.000001

  function At(t: real): Config { Config(SWEPT, DEFAULT_L3B_THRESHOLD, t) }

  predicate Ascending(s: seq<real>) {
    forall i, j :: 0 <= i < j < |s| ==> s[i] < s[j]
  }

  function AddOnce(x: real, s: seq<real>): (r: seq<real>)
    requires Ascending(s)
    ensures Ascending(r) && forall y :: y in r <==> y in s || y == x
  {
    if s == [] then [x]
    else
      var front, last := s[..|s| - 1], s[|s| - 1];
      assert s == front + [last];
      if last == x then s
      else if last > x then
        var below := AddOnce(x, front);
        assert forall i :: 0 <= i < |below| ==> below[i] in below;
        below + [last]
      else s + [x]
  }

  /** `sorted` of the set of margins: ascending, each once. */
  function Margins(rs: seq<Record>): (margins: seq<real>)
    ensures Ascending(margins)
    ensures forall r :: r in rs && r.top1.Some? ==> MarginOf(StoredMargin(r).value) in margins
  {
    if rs == [] then []
    else
      var front, last := rs[..|rs| - 1], rs[|rs| - 1];
      assert rs == front + [last];
      if last.top1.Some? then AddOnce(MarginOf(StoredMargin(last).value), Margins(front)) else Margins(front)
  }

  function Thresholds(rs: seq<Record>): (thresholds: seq<real>)
    ensures thresholds != [] && Ascending(thresholds)
  {
    var margins := Margins(rs);
    if margins == [] then [0.0] else [margins[0] - BELOW_ALL] + margins
  }

  datatype Point = Point(threshold: real, coverage: real, risk: real)

  function GoldPoint(cases: seq<Case>, rerank: Reranker, t: real): Point {
    var answered, correct := CountAnswered(Records(cases), rerank, At(t)), CountCorrect(cases, rerank, At(t));
    Point(t, Rate(answered, |cases|), Rate(answered - correct, answered))
  }

  datatype NegativePoint = NegativePoint(threshold: real, rate: real)

  function NegativePointAt(rs: seq<Record>, rerank: Reranker, t: real): NegativePoint {
    NegativePoint(t, Coverage(rs, rerank, At(t)))
  }

  function GoldPoints(cases: seq<Case>, rerank: Reranker, thresholds: seq<real>): seq<Point> {
    seq(|thresholds|, i requires 0 <= i < |thresholds| => GoldPoint(cases, rerank, thresholds[i]))
  }

  method PointsForGold(cases: seq<Case>, rerank: Reranker, thresholds: seq<real>) returns (points: seq<Point>)
    ensures points == GoldPoints(cases, rerank, thresholds)
  {
    points := [];
    for k := 0 to |thresholds|
      invariant |points| == k
      invariant forall i :: 0 <= i < k ==> points[i] == GoldPoint(cases, rerank, thresholds[i])
    {
      points := points + [GoldPoint(cases, rerank, thresholds[k])];
    }
  }

  method PointsForNegative(rs: seq<Record>, rerank: Reranker, thresholds: seq<real>)
    returns (points: seq<NegativePoint>)
    ensures |points| == |thresholds|
    ensures forall i :: 0 <= i < |points| ==> points[i] == NegativePointAt(rs, rerank, thresholds[i])
  {
    points := [];
    for k := 0 to |thresholds|
      invariant |points| == k
      invariant forall i :: 0 <= i < k ==> points[i] == NegativePointAt(rs, rerank, thresholds[i])
    {
      points := points + [NegativePointAt(rs, rerank, thresholds[k])];
    }
  }

  // ----- Areas -----

  /** The slice of one trapezoid. */
  function Slice(dx: real, a: real, b: real): real {
    dx * (a + b) / 2.0
  }

  function Trapezoid<P>(pts: seq<P>, x: P -> real, y: P -> real): real {
    if |pts| < 2 then 0.0
    else
      var a, b := pts[|pts| - 2], pts[|pts| - 1];
      Trapezoid(pts[..|pts| - 1], x, y) + Slice(x(b) - x(a), y(a), y(b))
  }

  method AreaUnder<P>(points: seq<P>, x: P -> real, y: P -> real) returns (area: real)
    ensures area == Trapezoid(SortBy(points, x), x, y)
  {
    var pts := SortBy(points, x);
    area := 0.0;
    var i := 0;
    while i + 1 < |pts|
      invariant i < |pts| || (i == 0 && area == 0.0)
      invariant i < |pts| ==> area == Trapezoid(pts[..i + 1], x, y)
    {
      var a, b := pts[i], pts[i + 1];
      area := area + Slice(x(b) - x(a), y(a), y(b));
      assert pts[..i + 2][..i + 1] == pts[..i + 1];
      i := i + 1;
    }
    assert |pts| > 0 ==> pts[..i + 1] == pts;
  }

  function Block(dx: real, height: real): real {
    dx * height
  }

  lemma SliceIsMean(dx: real, a: real, b: real)
    requires dx >= 0.0 && a >= b
    ensures Block(dx, b) <= Slice(dx, a, b) <= Block(dx, a)
    ensures Slice(dx, a, b) == (Block(dx, b) + Block(dx, a)) / 2.0
  {}

  lemma AddMeans(low: real, area: real, high: real, right: real, slice: real, left: real)
    requires low <= area <= high && area == (low + high) / 2.0
    requires right <= slice <= left && slice == (right + left) / 2.0
    ensures low + right <= area + slice <= high + left && area + slice == (low + right + (high + left)) / 2.0
  {}

  lemma SliceOfRates(dx: real, a: real, b: real)
    requires dx >= 0.0 && 0.0 <= a <= 1.0 && 0.0 <= b <= 1.0
    ensures 0.0 <= Slice(dx, a, b) <= dx
  {}

  /** Over an ascending x, the area under rates is at most the width. */
  lemma {:induction false} AreaBounds<P>(pts: seq<P>, x: P -> real, y: P -> real)
    requires pts != [] && Sorted(pts, x)
    requires forall i :: 0 <= i < |pts| ==> 0.0 <= y(pts[i]) <= 1.0
    ensures 0.0 <= Trapezoid(pts, x, y) <= x(pts[|pts| - 1]) - x(pts[0])
  {
    if |pts| < 2 {
    } else {
      var a, b := pts[|pts| - 2], pts[|pts| - 1];
      AreaBounds(pts[..|pts| - 1], x, y);
      SliceOfRates(x(b) - x(a), y(a), y(b));
    }
  }

  /** The sum of the slices, each as high as its right (or its left) end. */
  function StepSum<P>(pts: seq<P>, x: P -> real, y: P -> real, left: bool): real {
    if |pts| < 2 then 0.0
    else
      var a, b := pts[|pts| - 2], pts[|pts| - 1];
      StepSum(pts[..|pts| - 1], x, y, left) + Block(x(b) - x(a), if left then y(a) else y(b))
  }

  lemma {:induction false} BetweenStepSums<P>(pts: seq<P>, x: P -> real, y: P -> real)
    requires Sorted(pts, x)
    requires forall i, j :: 0 <= i < j < |pts| ==> y(pts[i]) >= y(pts[j])
    ensures StepSum(pts, x, y, false) <= Trapezoid(pts, x, y) <= StepSum(pts, x, y, true)
    ensures Trapezoid(pts, x, y) == (StepSum(pts, x, y, false) + StepSum(pts, x, y, true)) / 2.0
  {
    if |pts| < 2 {
    } else {
      var front, a, b := pts[..|pts| - 1], pts[|pts| - 2], pts[|pts| - 1];
      var dx := x(b) - x(a);
      BetweenStepSums(front, x, y);
      SliceIsMean(dx, y(a), y(b));
      AddMeans(StepSum(front, x, y, false), Trapezoid(front, x, y), StepSum(front, x, y, true),
               Block(dx, y(b)), Slice(dx, y(a), y(b)), Block(dx, y(a)));
    }
  }

  // ----- What a higher threshold does -----

  predicate StricterConfig(c: Config, d: Config) {
    c.layers <= d.layers && c.l3bThreshold <= d.l3bThreshold && c.l1Threshold <= d.l1Threshold
  }

  lemma {:induction false} StricterAnswersFewer(rs: seq<Record>, rerank: Reranker, c: Config, d: Config)
    requires StricterConfig(c, d)
    ensures CountAnswered(rs, rerank, d) <= CountAnswered(rs, rerank, c)
  {
    if rs == [] {
    } else {
      var r := rs[|rs| - 1];
      StricterAnswersFewer(rs[..|rs| - 1], rerank, c, d);
      if Answers(r, rerank, d) {
        GateSafety.StricterNeverPassesMore(r.answer, StoredContext(r), rerank,
                                           Settings(c.layers, c.l3bThreshold, StoredMargin(r), c.l1Threshold),
                                           Settings(d.layers, d.l3bThreshold, StoredMargin(r), d.l1Threshold));
      }
    }
  }

  lemma RateGrows(k: nat, m: nat, n: nat)
    requires k <= m
    ensures Rate(k, n) <= Rate(m, n)
  {}

  /** More layers or higher thresholds never raise the coverage of a split, which for the
      negative tiers is the hallucination rate. */
  lemma StricterCoversLess(rs: seq<Record>, rerank: Reranker, c: Config, d: Config)
    requires StricterConfig(c, d)
    ensures Coverage(rs, rerank, d) <= Coverage(rs, rerank, c)
  {
    StricterAnswersFewer(rs, rerank, c, d);
    RateGrows(CountAnswered(rs, rerank, d), CountAnswered(rs, rerank, c), |rs|);
  }

  /** The first threshold is below every margin: there, on a record with scores, the sweep
      decides as plain L2 and L3 do, down to the reason. A record without scores is refused
      at every threshold. */
  lemma FirstPointIsPlain(all: seq<Record>, r: Record, rerank: Reranker, l1Threshold: real)
    requires r in all
    ensures r.top1.Some? ==> Decide(r, rerank, SWEPT, DEFAULT_L3B_THRESHOLD, Thresholds(all)[0])
                             == Decide(r, rerank, PLAIN, DEFAULT_L3B_THRESHOLD, l1Threshold)
    ensures r.top1.None? ==> Decide(r, rerank, SWEPT, DEFAULT_L3B_THRESHOLD, l1Threshold) == Refused(NoScores)
  {
    if r.top1.Some? {
      var margins, m := Margins(all), MarginOf(StoredMargin(r).value);
      assert m in margins;
      assert margins[0] <= m;
    }
  }

  // ----- What the points say -----

  /** All three layers pass the stored answer at threshold t, and there is something to show. */
  predicate AnsweredAt(r: Record, rerank: Reranker, t: real) {
    var margin := if r.top1.Some? then Some(Margin(r.top1.value, r.top2)) else None;
    && ApplyGate(r.answer, StoredContext(r), rerank, Settings({L1, L2, L3}, 0.0, margin, t)).Passed?
    && (r.answer.value.Some? || (r.answer.text.Some? && r.answer.text.value != ""))
  }

  predicate RightAt(k: Case) {
    k.record.answer.value.Some? && NumbersMatch(k.gold, k.record.answer.value.value)
  }

  function Where<T>(s: seq<T>, p: T -> bool): set<int> {
    set i | 0 <= i < |s| && p(s[i])
  }

  lemma WhereOneMore<T>(s: seq<T>, p: T -> bool)
    requires s != []
    ensures |Where(s, p)| == |Where(s[..|s| - 1], p)| + (if p(s[|s| - 1]) then 1 else 0)
  {
    var n := |s| - 1;
    assert Where(s, p) == Where(s[..n], p) + (if p(s[n]) then {n} else {});
  }

  function AnsweredSet(rs: seq<Record>, rerank: Reranker, t: real): set<int> {
    Where(rs, (r: Record) => AnsweredAt(r, rerank, t))
  }

  function WrongSet(cases: seq<Case>, rerank: Reranker, t: real): set<int> {
    Where(cases, (k: Case) => AnsweredAt(k.record, rerank, t) && !RightAt(k))
  }

  lemma {:induction false} CountedWhere(rs: seq<Record>, rerank: Reranker, c: Config, p: Record -> bool)
    requires forall r :: p(r) <==> Answers(r, rerank, c)
    ensures CountAnswered(rs, rerank, c) == |Where(rs, p)|
  {
    if rs == [] {
    } else {
      CountedWhere(rs[..|rs| - 1], rerank, c, p);
      WhereOneMore(rs, p);
      assert p(rs[|rs| - 1]) <==> Answers(rs[|rs| - 1], rerank, c);
    }
  }

  lemma {:induction false} WrongWhere(cases: seq<Case>, rerank: Reranker, c: Config, q: Case -> bool)
    requires forall k :: q(k) <==> Answers(k.record, rerank, c) && !Correct(k, rerank, c)
    ensures CountAnswered(Records(cases), rerank, c) - CountCorrect(cases, rerank, c) == |Where(cases, q)|
  {
    if cases == [] {
    } else {
      var front, last := cases[..|cases| - 1], cases[|cases| - 1];
      WrongWhere(front, rerank, c, q);
      WhereOneMore(cases, q);
      RecordsOf(cases);
      assert Records(cases)[..|cases| - 1] == Records(front);
      assert q(last) <==> Answers(last.record, rerank, c) && !Correct(last, rerank, c);
    }
  }

  lemma AnsweredAtIsAnswers(r: Record, rerank: Reranker, t: real)
    ensures AnsweredAt(r, rerank, t) <==> Answers(r, rerank, At(t))
  {}

  lemma WrongAtIsWrong(k: Case, rerank: Reranker, t: real)
    ensures AnsweredAt(k.record, rerank, t) && !RightAt(k)
            <==> Answers(k.record, rerank, At(t)) && !Correct(k, rerank, At(t))
  {
    AnsweredAtIsAnswers(k.record, rerank, t);
  }

  lemma AnsweredAreCounted(rs: seq<Record>, rerank: Reranker, t: real)
    ensures CountAnswered(rs, rerank, At(t)) == |AnsweredSet(rs, rerank, t)|
  {
    var p := (r: Record) => AnsweredAt(r, rerank, t);
    forall r: Record ensures p(r) <==> Answers(r, rerank, At(t)) {
      AnsweredAtIsAnswers(r, rerank, t);
    }
    CountedWhere(rs, rerank, At(t), p);
    assert Where(rs, p) == AnsweredSet(rs, rerank, t);
  }

  lemma WrongAreCounted(cases: seq<Case>, rerank: Reranker, t: real)
    ensures CountAnswered(Records(cases), rerank, At(t)) - CountCorrect(cases, rerank, At(t))
            == |WrongSet(cases, rerank, t)|
  {
    var q := (k: Case) => AnsweredAt(k.record, rerank, t) && !RightAt(k);
    forall k ensures q(k) <==> Answers(k.record, rerank, At(t)) && !Correct(k, rerank, At(t)) {
      WrongAtIsWrong(k, rerank, t);
    }
    WrongWhere(cases, rerank, At(t), q);
    assert Where(cases, q) == WrongSet(cases, rerank, t);
  }

  /** The share is of n, and 0 of nothing. */
  predicate IsShare(share: real, part: nat, n: nat) {
    share * n as real == part as real && (n == 0 ==> share == 0.0)
  }

  lemma RateIsShare(k: nat, n: nat)
    requires k <= n
    ensures IsShare(Rate(k, n), k, n)
  {
    RateIsFraction(k, n);
  }

  /** How many questions are answered, and how many of these wrongly. */
  predicate IsRiskPoint(p: Point, cases: seq<Case>, rerank: Reranker, t: real) {
    IsRiskOf(p, t, |WrongSet(cases, rerank, t)|, |AnsweredSet(Records(cases), rerank, t)|, |cases|)
  }

  predicate IsRiskOf(p: Point, t: real, wrong: nat, answered: nat, n: nat) {
    p.threshold == t && IsShare(p.coverage, answered, n) && IsShare(p.risk, wrong, answered)
  }

  lemma RiskOfCounts(t: real, correct: nat, answered: nat, n: nat)
    requires correct <= answered <= n
    ensures IsRiskOf(Point(t, Rate(answered, n), Rate(answered - correct, answered)),
                     t, answered - correct, answered, n)
  {
    RateIsShare(answered, n);
    RateIsShare(answered - correct, answered);
  }

  predicate IsRatePoint(p: NegativePoint, rs: seq<Record>, rerank: Reranker, t: real) {
    p.threshold == t && IsShare(p.rate, |AnsweredSet(rs, rerank, t)|, |rs|)
  }

  lemma {:induction false} CountsAreSizes(cases: seq<Case>, rerank: Reranker, t: real)
      returns (answered: nat, correct: nat)
    ensures answered == |AnsweredSet(Records(cases), rerank, t)| && correct <= answered <= |cases|
    ensures answered - correct == |WrongSet(cases, rerank, t)|
    ensures GoldPoint(cases, rerank, t) == Point(t, Rate(answered, |cases|), Rate(answered - correct, answered))
  {
    answered, correct := CountAnswered(Records(cases), rerank, At(t)), CountCorrect(cases, rerank, At(t));
    AnsweredAreCounted(Records(cases), rerank, t);
    WrongAreCounted(cases, rerank, t);
    CorrectIsAnswered(cases, rerank, At(t));
  }

  lemma {:induction false} GoldPointIsRisk(cases: seq<Case>, rerank: Reranker, t: real)
    ensures IsRiskPoint(GoldPoint(cases, rerank, t), cases, rerank, t)
  {
    var answered, correct := CountsAreSizes(cases, rerank, t);
    RiskOfCounts(t, correct, answered, |cases|);
  }

  lemma NegativePointIsRate(rs: seq<Record>, rerank: Reranker, t: real)
    ensures IsRatePoint(NegativePointAt(rs, rerank, t), rs, rerank, t)
  {
    AnsweredAreCounted(rs, rerank, t);
    RateIsShare(CountAnswered(rs, rerank, At(t)), |rs|);
  }

  /** The margin that L1 compares, if the record has scores. */
  predicate HasMargin(r: Record, m: real) {
    r.top1.Some? && m == r.top1.value - (if r.top2.Some? then r.top2.value else 0.0)
  }

  lemma {:induction false} MarginsAreOfRecords(rs: seq<Record>, m: real)
    ensures m in Margins(rs) <==> exists r :: r in rs && HasMargin(r, m)
  {
    if rs == [] {
    } else {
      var front, last := rs[..|rs| - 1], rs[|rs| - 1];
      assert rs == front + [last];
      MarginsAreOfRecords(front, m);
      assert last in rs && forall r :: r in rs <==> r in front || r == last;
    }
  }

  /** The thresholds of the sweep are the margins of the records, and one just below the
      least of them. */
  lemma ThresholdsAreMargins(rs: seq<Record>, t: real)
    ensures t in Thresholds(rs)[1..] <==> exists r :: r in rs && HasMargin(r, t)
    ensures |Thresholds(rs)| > 1 ==> Thresholds(rs)[0] == Thresholds(rs)[1] - 0.000001
  {
    MarginsAreOfRecords(rs, t);
    var margins := Margins(rs);
    if margins != [] {
      assert Thresholds(rs)[1..] == margins;
    } else {
      assert Thresholds(rs)[1..] == [];
    }
  }

  // ----- The two areas of the sweep -----

  function CoverageOf(p: Point): real { p.coverage }
  function RiskOf(p: Point): real { p.risk }
  function ThresholdOf(p: NegativePoint): real { p.threshold }
  function RateOf(p: NegativePoint): real { p.rate }

  predicate HasRates(p: Point) {
    0.0 <= CoverageOf(p) <= 1.0 && 0.0 <= RiskOf(p) <= 1.0
  }

  lemma RatesOfCounts(t: real, correct: nat, answered: nat, n: nat)
    requires correct <= answered <= n
    ensures HasRates(Point(t, Rate(answered, n), Rate(answered - correct, answered)))
  {
    RateIsFraction(answered, n);
    RateIsFraction(answered - correct, answered);
  }

  lemma GoldPointHasRates(cases: seq<Case>, rerank: Reranker, t: real)
    ensures HasRates(GoldPoint(cases, rerank, t))
  {
    CorrectIsAnswered(cases, rerank, At(t));
    RatesOfCounts(t, CountCorrect(cases, rerank, At(t)), CountAnswered(Records(cases), rerank, At(t)), |cases|);
  }

  /** The area under the risk-coverage curve, a number from 0 to 1. Its points are, for each
      threshold, the share of the questions answered there, and of these the share that is
      answered wrongly. */
  method Aurc(cases: seq<Case>, rerank: Reranker, thresholds: seq<real>) returns (aurc: real)
    ensures aurc == Trapezoid(SortBy(GoldPoints(cases, rerank, thresholds), CoverageOf), CoverageOf, RiskOf)
    ensures forall i :: 0 <= i < |thresholds| ==>
              IsRiskPoint(GoldPoints(cases, rerank, thresholds)[i], cases, rerank, thresholds[i])
    ensures 0.0 <= aurc <= 1.0
  {
    forall i | 0 <= i < |thresholds|
      ensures IsRiskPoint(GoldPoint(cases, rerank, thresholds[i]), cases, rerank, thresholds[i])
    {
      GoldPointIsRisk(cases, rerank, thresholds[i]);
    }
    var points := PointsForGold(cases, rerank, thresholds);
    aurc := AreaUnder(points, CoverageOf, RiskOf);
    if points != [] {
      forall p | p in points ensures HasRates(p) {
        var i :| 0 <= i < |points| && p == points[i];
        GoldPointHasRates(cases, rerank, thresholds[i]);
      }
      AreaOfRates(points);
    }
  }

  lemma AreaOfRates(points: seq<Point>)
    requires points != []
    requires forall p :: p in points ==> HasRates(p)
    ensures 0.0 <= Trapezoid(SortBy(points, CoverageOf), CoverageOf, RiskOf) <= 1.0
  {
    var pts := SortBy(points, CoverageOf);
    SameElements(points, CoverageOf);
    SortByIsSorted(points, CoverageOf);
    assert forall i :: 0 <= i < |pts| ==> pts[i] in pts;
    assert forall i :: 0 <= i < |pts| ==> HasRates(pts[i]);
    AreaBounds(pts, CoverageOf, RiskOf);
  }

  /** The area of a negative tier lies between its step sums, and halves their sum. */
  method HallucinationArea(rs: seq<Record>, rerank: Reranker, thresholds: seq<real>)
    returns (points: seq<NegativePoint>, area: real)
    requires Ascending(thresholds)
    ensures |points| == |thresholds|
    ensures forall i :: 0 <= i < |points| ==> IsRatePoint(points[i], rs, rerank, thresholds[i])
    ensures forall i, j :: 0 <= i < j < |points| ==> RateOf(points[i]) >= RateOf(points[j])
    ensures StepSum(points, ThresholdOf, RateOf, false) <= area <= StepSum(points, ThresholdOf, RateOf, true)
    ensures area == (StepSum(points, ThresholdOf, RateOf, false) + StepSum(points, ThresholdOf, RateOf, true)) / 2.0
  {
    points := PointsForNegative(rs, rerank, thresholds);
    area := AreaUnder(points, ThresholdOf, RateOf);
    forall i | 0 <= i < |points| ensures IsRatePoint(points[i], rs, rerank, thresholds[i]) {
      NegativePointIsRate(rs, rerank, thresholds[i]);
    }
    assert Sorted(points, ThresholdOf);
    SortBySorted(points, ThresholdOf);
    forall i, j | 0 <= i < j < |points| ensures RateOf(points[i]) >= RateOf(points[j]) {
      StricterCoversLess(rs, rerank, At(thresholds[i]), At(thresholds[j]));
    }
    BetweenStepSums(points, ThresholdOf, RateOf);
  }
}
