/** The criteria-based scorer (src/shared/components/ScoringSystem.tsx):
    each criterion is matched to a measurement by name and scored by linear
    deduction from its ideal range; the totals give a percentage band. */
module ScoringSystem {
  import opened Wrappers
  import opened JsNumber

  datatype MeasurementType = Angle | Distance | Other

  datatype Measurement = Measurement(value: real, kind: MeasurementType, name: string)

  datatype Criterion = Criterion(minAngle: Option<real>, maxAngle: Option<real>,
                                 minValue: Option<real>, maxValue: Option<real>,
                                 weight: real, name: string)

  /** The per-criterion feedback; the deviations are shown with one decimal. */
  datatype Feedback =
    | NoMeasurement
    | NoFeedback
    | AngleIdeal | AngleMinMet | AngleMaxMet
    | AngleLow(deviation: real) | AngleHigh(deviation: real)
    | ValueIdeal
    | ValueLow(deviation: real) | ValueHigh(deviation: real)

  datatype Detail = Detail(score: real, maxScore: real, feedback: Feedback, rawValue: real)

  datatype Overall = Excellent | Good | Fair | NeedsWork

  datatype ScoringResult = ScoringResult(score: real, maxScore: real, percentage: real,
                                         details: map<string, Detail>, overall: Overall)

  /** The deviation, in degrees, at which an angle scores nothing. */
  const MaxAngleDeviation: real := 30.0

  /** `measurements.find(m => m.name === name)`. */
  function FindMeasurement(ms: seq<Measurement>, name: string): (r: Option<Measurement>)
    ensures r.Some? ==> exists i :: 0 <= i < |ms| && ms[i] == r.value && r.value.name == name &&
                          forall j :: 0 <= j < i ==> ms[j].name != name
    ensures r.None? <==> forall i :: 0 <= i < |ms| ==> ms[i].name != name
  {
    if ms == [] then None
    else if ms[0].name == name then Some(ms[0])
    else
      var r := FindMeasurement(ms[1..], name);
      assert r.Some? ==> exists i :: 0 <= i < |ms| - 1 && ms[1..][i] == r.value;
      r
  }

  /** Weight times one minus the capped relative deviation. */
  function Deducted(weight: real, deduction: real): real {
    weight * (1.0 - deduction)
  }

  /** The angle deduction `min(1, deviation / 30)`. */
  function AngleDeduction(deviation: real): real {
    Min(1.0, deviation / MaxAngleDeviation)
  }

  /** The value deduction `min(1, deviation / (range * 0.5))`; a zero range
      divides by zero, which JavaScript takes to the full deduction. */
  function ValueDeduction(deviation: real, range: real): real {
    if range * 0.5 == 0.0 then 1.0 else Min(1.0, deviation / (range * 0.5))
  }

  /** The unrounded score and the feedback for a criterion and its measurement. */
  function Evaluate(m: Measurement, c: Criterion): (real, Feedback) {
    var v := m.value;
    if m.kind == Angle then
      if c.minAngle.Some? && c.maxAngle.Some? then
        var lo, hi := c.minAngle.value, c.maxAngle.value;
        if lo <= v <= hi then (c.weight, AngleIdeal)
        else
          var deviation := Min(Abs(v - lo), Abs(v - hi));
          (Deducted(c.weight, AngleDeduction(deviation)),
           if v < lo then AngleLow(deviation) else AngleHigh(deviation))
      else if c.minAngle.Some? then
        if v >= c.minAngle.value then (c.weight, AngleMinMet)
        else
          var deviation := c.minAngle.value - v;
          (Deducted(c.weight, AngleDeduction(deviation)), AngleLow(deviation))
      else if c.maxAngle.Some? then
        if v <= c.maxAngle.value then (c.weight, AngleMaxMet)
        else
          var deviation := v - c.maxAngle.value;
          (Deducted(c.weight, AngleDeduction(deviation)), AngleHigh(deviation))
      else (0.0, NoFeedback)
    else
      if c.minValue.Some? && c.maxValue.Some? then
        var lo, hi := c.minValue.value, c.maxValue.value;
        if lo <= v <= hi then (c.weight, ValueIdeal)
        else
          var deviation := Min(Abs(v - lo), Abs(v - hi));
          (Deducted(c.weight, ValueDeduction(deviation, hi - lo)),
           if v < lo then ValueLow(deviation) else ValueHigh(deviation))
      else (0.0, NoFeedback)
  }

  /** The bounds a criterion uses for a measurement of this kind are sane:
      an angle's two-sided range, or a value's range, is not inverted. */
  predicate Ordered(m: Measurement, c: Criterion) {
    if m.kind == Angle then c.minAngle.Some? && c.maxAngle.Some? ==> c.minAngle.value <= c.maxAngle.value
    else c.minValue.Some? && c.maxValue.Some? ==> c.minValue.value <= c.maxValue.value
  }

  /** A non-negative weight bounds the criterion's score to [0, weight];
      a value inside the range, or meeting its one-sided bound, earns it all. */
  lemma EvaluateBounds(m: Measurement, c: Criterion)
    requires c.weight >= 0.0
    requires Ordered(m, c)
    ensures 0.0 <= Evaluate(m, c).0 <= c.weight
    ensures (m.kind == Angle && c.minAngle.Some? && c.maxAngle.Some? &&
             c.minAngle.value <= m.value <= c.maxAngle.value) ==> Evaluate(m, c).0 == c.weight
    ensures (m.kind == Angle && c.minAngle.Some? && c.maxAngle.None? &&
             m.value >= c.minAngle.value) ==> Evaluate(m, c).0 == c.weight
    ensures (m.kind == Angle && c.minAngle.None? && c.maxAngle.Some? &&
             m.value <= c.maxAngle.value) ==> Evaluate(m, c).0 == c.weight
    ensures (m.kind != Angle && c.minValue.Some? && c.maxValue.Some? &&
             c.minValue.value <= m.value <= c.maxValue.value) ==> Evaluate(m, c).0 == c.weight
  {
    var v := m.value;
    if m.kind == Angle {
      if c.minAngle.Some? && c.maxAngle.Some? && !(c.minAngle.value <= v <= c.maxAngle.value) {
        var d := Min(Abs(v - c.minAngle.value), Abs(v - c.maxAngle.value));
        DeductedBounds(c.weight, AngleDeduction(d));
      } else if c.minAngle.Some? && c.maxAngle.None? && v < c.minAngle.value {
        DeductedBounds(c.weight, AngleDeduction(c.minAngle.value - v));
      } else if c.minAngle.None? && c.maxAngle.Some? && v > c.maxAngle.value {
        DeductedBounds(c.weight, AngleDeduction(v - c.maxAngle.value));
      }
    } else if c.minValue.Some? && c.maxValue.Some? && !(c.minValue.value <= v <= c.maxValue.value) {
      var lo, hi := c.minValue.value, c.maxValue.value;
      var d := Min(Abs(v - lo), Abs(v - hi));
      assert d >= 0.0;
      DeductedBounds(c.weight, ValueDeduction(d, hi - lo));
    }
  }

  lemma DeductedBounds(weight: real, deduction: real)
    requires weight >= 0.0 && 0.0 <= deduction <= 1.0
    ensures 0.0 <= Deducted(weight, deduction) <= weight
  {
    assert weight * deduction >= 0.0;
    assert weight * deduction <= weight * 1.0;
  }

  /** Outside an angle range the score falls linearly with the distance to
      the nearer bound and is 0 from 30 degrees on. */
  lemma AngleDeductionIsLinear(m: Measurement, c: Criterion)
    requires m.kind == Angle && c.minAngle.Some? && c.maxAngle.Some?
    requires !(c.minAngle.value <= m.value <= c.maxAngle.value)
    ensures var d := Min(Abs(m.value - c.minAngle.value), Abs(m.value - c.maxAngle.value));
      && Evaluate(m, c).0 == c.weight * (1.0 - Min(1.0, d / 30.0))
      && (d >= 30.0 ==> Evaluate(m, c).0 == 0.0)
      && (m.value < c.minAngle.value ==> Evaluate(m, c).1 == AngleLow(d))
      && (m.value >= c.minAngle.value ==> Evaluate(m, c).1 == AngleHigh(d))
  {
  }

  /** Outside a value range the full deduction is reached at half the
      range's width from the nearer bound. */
  lemma ValueDeductionUsesHalfRange(m: Measurement, c: Criterion)
    requires m.kind != Angle && c.minValue.Some? && c.maxValue.Some?
    requires c.minValue.value < c.maxValue.value
    requires !(c.minValue.value <= m.value <= c.maxValue.value)
    ensures var lo, hi := c.minValue.value, c.maxValue.value;
      var d := Min(Abs(m.value - lo), Abs(m.value - hi));
      && Evaluate(m, c).0 == c.weight * (1.0 - Min(1.0, d / ((hi - lo) / 2.0)))
      && (d >= (hi - lo) / 2.0 ==> Evaluate(m, c).0 == 0.0)
  {
    var lo, hi := c.minValue.value, c.maxValue.value;
    var d := Min(Abs(m.value - lo), Abs(m.value - hi));
    assert (hi - lo) * 0.5 == (hi - lo) / 2.0;
    if d >= (hi - lo) / 2.0 {
      DivAtLeastOne(d, (hi - lo) * 0.5);
    }
  }

  lemma DivAtLeastOne(d: real, h: real)
    requires h > 0.0 && d >= h
    ensures d / h >= 1.0
  {
  }

  /** An inverted value range (min above max) never contains the value and,
      with a positive weight, scores above the weight once the value is off
      both bounds. */
  lemma InvertedValueRangeOverscores(m: Measurement, c: Criterion)
    requires m.kind != Angle && c.minValue.Some? && c.maxValue.Some?
    requires c.minValue.value > c.maxValue.value && c.weight > 0.0
    requires m.value != c.minValue.value && m.value != c.maxValue.value
    ensures Evaluate(m, c).0 > c.weight
  {
    var lo, hi := c.minValue.value, c.maxValue.value;
    var d := Min(Abs(m.value - lo), Abs(m.value - hi));
    var h := (hi - lo) * 0.5;
    assert d > 0.0 && h < 0.0;
    var q := d / h;
    NegativeQuotient(d, h);
    assert ValueDeduction(d, hi - lo) == q;
    assert 1.0 - q > 1.0;
    AboveWeight(c.weight, 1.0 - q);
  }

  lemma NegativeQuotient(d: real, h: real)
    requires d > 0.0 && h < 0.0
    ensures d / h < 0.0
  {
    assert d / h == -(d / -h);
    assert d / -h > 0.0;
  }

  lemma AboveWeight(weight: real, factor: real)
    requires weight > 0.0 && factor > 1.0
    ensures weight * factor > weight
  {
    assert weight * factor - weight == weight * (factor - 1.0);
  }

  /** The running totals and the details map. */
  datatype Tally = Tally(score: real, maxScore: real, details: map<string, Detail>)

  /** The criteria loop: a missing measurement records a zero detail and
      adds nothing; otherwise the unrounded score and the weight are added
      and the detail holds the score rounded to two decimals. */
  function Step(ms: seq<Measurement>, t: Tally, c: Criterion): Tally {
    match FindMeasurement(ms, c.name)
    case None => Tally(t.score, t.maxScore, t.details[c.name := Detail(0.0, c.weight, NoMeasurement, 0.0)])
    case Some(m) =>
      var (s, f) := Evaluate(m, c);
      Tally(t.score + s, t.maxScore + c.weight, t.details[c.name := Detail(Round2(s), c.weight, f, m.value)])
  }

  function Accumulate(ms: seq<Measurement>, cs: seq<Criterion>): Tally {
    if cs == [] then Tally(0.0, 0.0, map[])
    else Step(ms, Accumulate(ms, cs[..|cs| - 1]), cs[|cs| - 1])
  }

  /** The percentage of the maximum, 0 when nothing could be scored. */
  function Percentage(score: real, maxScore: real): (p: real)
    ensures maxScore <= 0.0 ==> p == 0.0
    ensures maxScore > 0.0 && 0.0 <= score <= maxScore ==> 0.0 <= p <= 100.0
  {
    if maxScore > 0.0 then PercentageBounds(score, maxScore); score / maxScore * 100.0 else 0.0
  }

  lemma PercentageBounds(score: real, maxScore: real)
    requires maxScore > 0.0
    ensures 0.0 <= score <= maxScore ==> 0.0 <= score / maxScore * 100.0 <= 100.0
  {
    if 0.0 <= score <= maxScore {
      assert score / maxScore <= 1.0;
    }
  }

  /** The overall feedback bands at 90, 75 and 60 percent. */
  function OverallBand(percentage: real): (o: Overall)
    ensures o == Excellent <==> percentage >= 90.0
    ensures o == Good <==> 75.0 <= percentage < 90.0
    ensures o == Fair <==> 60.0 <= percentage < 75.0
    ensures o == NeedsWork <==> percentage < 60.0
  {
    if percentage >= 90.0 then Excellent
    else if percentage >= 75.0 then Good
    else if percentage >= 60.0 then Fair
    else NeedsWork
  }

  function ResultOf(t: Tally): ScoringResult {
    var p := Percentage(t.score, t.maxScore);
    ScoringResult(t.score, t.maxScore, p, t.details, OverallBand(p))
  }

  /** calculateScore. */
  method CalculateScore(ms: seq<Measurement>, cs: seq<Criterion>) returns (result: ScoringResult)
    ensures result == ResultOf(Accumulate(ms, cs))
  {
    var score, maxScore, details := 0.0, 0.0, map[];
    var i := 0;
    while i < |cs|
      invariant 0 <= i <= |cs|
      invariant Tally(score, maxScore, details) == Accumulate(ms, cs[..i])
    {
      assert cs[..i + 1][..i] == cs[..i];
      var c := cs[i];
      var m := FindMeasurement(ms, c.name);
      if m.None? {
        details := details[c.name := Detail(0.0, c.weight, NoMeasurement, 0.0)];
      } else {
        var (s, f) := Evaluate(m.value, c);
        details := details[c.name := Detail(Round2(s), c.weight, f, m.value.value)];
        score := score + s;
        maxScore := maxScore + c.weight;
      }
      i := i + 1;
    }
    assert cs[..|cs|] == cs;
    var p := if maxScore > 0.0 then score / maxScore * 100.0 else 0.0;
    var overall := NeedsWork;
    if p >= 90.0 {
      overall := Excellent;
    } else if p >= 75.0 {
      overall := Good;
    } else if p >= 60.0 {
      overall := Fair;
    }
    result := ScoringResult(score, maxScore, p, details, overall);
  }

  /** The sum of unrounded scores of the criteria whose measurement exists. */
  function FoundScore(ms: seq<Measurement>, cs: seq<Criterion>): real {
    if cs == [] then 0.0
    else
      var c := cs[|cs| - 1];
      FoundScore(ms, cs[..|cs| - 1]) +
      (if FindMeasurement(ms, c.name).Some? then Evaluate(FindMeasurement(ms, c.name).value, c).0 else 0.0)
  }

  /** The sum of the weights of the criteria whose measurement exists. */
  function FoundWeight(ms: seq<Measurement>, cs: seq<Criterion>): real {
    if cs == [] then 0.0
    else
      var c := cs[|cs| - 1];
      FoundWeight(ms, cs[..|cs| - 1]) + (if FindMeasurement(ms, c.name).Some? then c.weight else 0.0)
  }

  /** The totals count exactly the criteria whose measurement exists; each
      criterion's name is a key of the details, and the last criterion of a
      name decides its entry. */
  lemma {:induction false} AccumulateTotals(ms: seq<Measurement>, cs: seq<Criterion>)
    ensures Accumulate(ms, cs).score == FoundScore(ms, cs)
    ensures Accumulate(ms, cs).maxScore == FoundWeight(ms, cs)
    ensures Accumulate(ms, cs).details.Keys == set c | c in cs :: c.name
  {
    if cs != [] {
      var init, last := cs[..|cs| - 1], cs[|cs| - 1];
      AccumulateTotals(ms, init);
      assert cs == init + [last];
      StepTotals(ms, Accumulate(ms, init), last);
      NamesOfAppend(init, last);
    }
  }

  lemma StepTotals(ms: seq<Measurement>, t: Tally, c: Criterion)
    ensures var found := FindMeasurement(ms, c.name);
      var u := Step(ms, t, c);
      && u.score == t.score + (if found.Some? then Evaluate(found.value, c).0 else 0.0)
      && u.maxScore == t.maxScore + (if found.Some? then c.weight else 0.0)
      && u.details.Keys == t.details.Keys + {c.name}
  {
  }

  lemma NamesOfAppend(init: seq<Criterion>, last: Criterion)
    ensures (set c | c in init + [last] :: c.name) == (set c | c in init :: c.name) + {last.name}
  {
    assert forall c :: c in init + [last] <==> c in init || c == last;
  }

  /** The entry of the last criterion in the list is the one kept. */
  lemma LastCriterionDecidesDetail(ms: seq<Measurement>, cs: seq<Criterion>, c: Criterion)
    ensures var d := Accumulate(ms, cs + [c]).details[c.name];
      match FindMeasurement(ms, c.name)
      case None => d == Detail(0.0, c.weight, NoMeasurement, 0.0)
      case Some(m) => d == Detail(Round2(Evaluate(m, c).0), c.weight, Evaluate(m, c).1, m.value)
  {
    assert (cs + [c])[..|cs + [c]| - 1] == cs;
  }

  /** With non-negative weights and sane bounds the total lies in
      [0, maxScore], so the percentage lies in [0, 100]. */
  lemma {:induction false} TotalWithinMax(ms: seq<Measurement>, cs: seq<Criterion>)
    requires forall c :: c in cs ==> c.weight >= 0.0
    requires forall c, m :: c in cs && FindMeasurement(ms, c.name) == Some(m) ==> Ordered(m, c)
    ensures 0.0 <= FoundScore(ms, cs) <= FoundWeight(ms, cs)
    ensures 0.0 <= ResultOf(Accumulate(ms, cs)).percentage <= 100.0
  {
    if cs != [] {
      var init := cs[..|cs| - 1];
      var c := cs[|cs| - 1];
      assert forall x :: x in init ==> x in cs;
      TotalWithinMax(ms, init);
      var m := FindMeasurement(ms, c.name);
      if m.Some? {
        EvaluateBounds(m.value, c);
      }
    }
    AccumulateTotals(ms, cs);
  }
}
