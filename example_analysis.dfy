/** The example FMS assessment shown on the analysis page
    (src/components/ExampleAnalysis.tsx) and the colour band of its score
    bars. */
module ExampleAnalysis {
  import opened Wrappers
  import opened Strings
  import JsNumber

  datatype Category = Mobility | Stability | General

  datatype Score = Score(value: real, maxValue: real, description: string)

  datatype Metric = Metric(id: string, name: string, score: Score, category: Category)

  datatype Example = Example(
    id: string, kind: string, movementType: string, movementName: string, timestamp: string,
    metrics: seq<Metric>, overallScore: Score, recommendations: seq<string>)

  const Excellent := "优秀"
  const Good := "良好"
  const NeedsWork := "需改进"

  /** The fixed metric lists of the three known movements. */
  const DeepSquat: seq<Metric> := [
    Metric("hip_mobility", "髋关节活动度", Score(2.0, 3.0, Good), Mobility),
    Metric("knee_stability", "膝关节稳定性", Score(3.0, 3.0, Excellent), Stability),
    Metric("ankle_mobility", "踝关节活动度", Score(2.0, 3.0, Good), Mobility),
    Metric("core_control", "核心控制", Score(2.0, 3.0, Good), Stability)]

  const HurdleStep: seq<Metric> := [
    Metric("single_leg_balance", "单腿平衡", Score(2.0, 3.0, Good), Stability),
    Metric("hip_flexion", "髋屈曲", Score(3.0, 3.0, Excellent), Mobility),
    Metric("knee_control", "膝关节控制", Score(2.0, 3.0, Good), Stability),
    Metric("trunk_stability", "躯干稳定性", Score(3.0, 3.0, Excellent), Stability)]

  const ShoulderMobility: seq<Metric> := [
    Metric("glenohumeral_mobility", "盂肱关节活动度", Score(3.0, 3.0, Excellent), Mobility),
    Metric("thoracic_extension", "胸椎伸展", Score(2.0, 3.0, Good), Mobility),
    Metric("scapular_stability", "肩胛骨稳定性", Score(2.0, 3.0, Good), Stability),
    Metric("shoulder_rotation", "肩部旋转", Score(3.0, 3.0, Excellent), Mobility)]

  /** The single metric any other movement gets. */
  const GeneralScore: Metric := Metric("general_score", "总体评分", Score(2.5, 3.0, Good), General)

  const Recommendations: seq<string> := ["继续保持当前训练计划", "针对低分指标进行强化训练", "增加核心稳定性训练"]

  /** `metricsMap[movementType] || [general]`; `None` when the lookup
      finds an inherited `Object.prototype` member, which is truthy but
      has no `reduce`, so the call throws. */
  function MetricsFor(movementType: string): (r: Option<seq<Metric>>)
    ensures r.None? <==> movementType in PrototypeNames
    ensures r.Some? ==> |r.value| >= 1
  {
    if movementType == "deep-squat" then Some(DeepSquat)
    else if movementType == "hurdle-step" then Some(HurdleStep)
    else if movementType == "shoulder-mobility" then Some(ShoulderMobility)
    else if movementType in PrototypeNames then None
    else Some([GeneralScore])
  }

  function SumValues(ms: seq<Metric>): real {
    if ms == [] then 0.0 else ms[0].score.value + SumValues(ms[1..])
  }

  /** `totalValue / metrics.length`. */
  function Average(ms: seq<Metric>): real
    requires |ms| >= 1
  {
    SumValues(ms) / |ms| as real
  }

  /** The overall description of an average. */
  function Band(average: real): (d: string)
    ensures d == Excellent <==> average >= 2.5
    ensures d == Good <==> 1.5 <= average < 2.5
    ensures d == NeedsWork <==> average < 1.5
  {
    if average >= 2.5 then Excellent else if average >= 1.5 then Good else NeedsWork
  }

  /** `generateExampleFmsAssessment(movementType, movementName)`; the
      clock's `Date.now()` and ISO time are `now` and `isoTime`. */
  function GenerateExample(movementType: string, movementName: string, now: nat, isoTime: string)
    : (r: Result<Example, string>)
    ensures r.Err? <==> movementType in PrototypeNames
    ensures r.Ok? ==> var e := r.value;
      e.id == "example_" + movementType + "_" + NatToString(now) && e.kind == "FMS" &&
      e.movementType == movementType && e.movementName == movementName && e.timestamp == isoTime &&
      Some(e.metrics) == MetricsFor(movementType) &&
      e.overallScore.maxValue == 3.0 &&
      Average(e.metrics) - 0.05 < e.overallScore.value <= Average(e.metrics) + 0.05 &&
      e.overallScore.description == Band(Average(e.metrics)) &&
      e.recommendations == Recommendations
  {
    match MetricsFor(movementType)
    case None => Err("TypeError")
    case Some(metrics) =>
      var average := Average(metrics);
      Ok(Example("example_" + movementType + "_" + NatToString(now), "FMS", movementType, movementName,
                 isoTime, metrics, Score(JsNumber.Round1(average), 3.0, Band(average)), Recommendations))
  }

  /** The deep squat averages 2.25: shown as 2.3, banded 良好. */
  lemma DeepSquatExample(movementName: string, now: nat, isoTime: string)
    ensures var r := GenerateExample("deep-squat", movementName, now, isoTime);
      r.Ok? && r.value.overallScore == Score(2.3, 3.0, Good)
  {
    assert DeepSquat[4..] == [];
    assert SumValues(DeepSquat[3..]) == 2.0;
    assert SumValues(DeepSquat[2..]) == 4.0;
    assert SumValues(DeepSquat[1..]) == 7.0;
    assert SumValues(DeepSquat[0..]) == 9.0;
    assert DeepSquat[0..] == DeepSquat;
    assert Average(DeepSquat) == 2.25;
    assert (2.25 * 10.0 + 0.5).Floor == 23;
  }

  /** The hurdle step and shoulder mobility average 2.5: banded 优秀. */
  lemma ExcellentExamples(movementName: string, now: nat, isoTime: string)
    ensures var r := GenerateExample("hurdle-step", movementName, now, isoTime);
      r.Ok? && r.value.overallScore == Score(2.5, 3.0, Excellent)
    ensures var r := GenerateExample("shoulder-mobility", movementName, now, isoTime);
      r.Ok? && r.value.overallScore == Score(2.5, 3.0, Excellent)
  {
    assert HurdleStep[4..] == [];
    assert SumValues(HurdleStep[3..]) == 3.0;
    assert SumValues(HurdleStep[2..]) == 5.0;
    assert SumValues(HurdleStep[1..]) == 8.0;
    assert SumValues(HurdleStep[0..]) == 10.0;
    assert HurdleStep[0..] == HurdleStep;
    assert ShoulderMobility[4..] == [];
    assert SumValues(ShoulderMobility[3..]) == 3.0;
    assert SumValues(ShoulderMobility[2..]) == 5.0;
    assert SumValues(ShoulderMobility[1..]) == 7.0;
    assert SumValues(ShoulderMobility[0..]) == 10.0;
    assert ShoulderMobility[0..] == ShoulderMobility;
    assert (2.5 * 10.0 + 0.5).Floor == 25;
  }

  /** Any movement that is neither known nor an inherited member gets the
      single general metric, 2.5 out of 3, banded 优秀. */
  lemma UnknownMovementExample(movementType: string, movementName: string, now: nat, isoTime: string)
    requires movementType !in PrototypeNames
    requires movementType != "deep-squat" && movementType != "hurdle-step" && movementType != "shoulder-mobility"
    ensures var r := GenerateExample(movementType, movementName, now, isoTime);
      r.Ok? && r.value.metrics == [GeneralScore] && r.value.overallScore == Score(2.5, 3.0, Excellent)
  {
    assert SumValues([GeneralScore]) == 2.5;
    assert (2.5 * 10.0 + 0.5).Floor == 25;
  }

  // ---------------------------------------------------------------------
  // ScoreBar
  // ---------------------------------------------------------------------

  datatype BarColour = Primary | Warning | Danger

  /** `score / maxScore * 100` as a JavaScript number: with maxScore 0 it
      is NaN for a zero score and an infinity otherwise. */
  datatype Percentage = Finite(p: real) | PlusInfinity | MinusInfinity | NotANumber

  function PercentageOf(score: real, maxScore: real): Percentage {
    if maxScore != 0.0 then Finite(score / maxScore * 100.0)
    else if score > 0.0 then PlusInfinity
    else if score < 0.0 then MinusInfinity
    else NotANumber
  }

  /** The bar colour: danger below 50%, warning below 80%, primary
      otherwise; NaN fails both comparisons. */
  function ScoreBarColour(score: real, maxScore: real): (c: BarColour)
    ensures maxScore > 0.0 ==> (c == Danger <==> score < 0.5 * maxScore)
    ensures maxScore > 0.0 ==> (c == Warning <==> 0.5 * maxScore <= score < 0.8 * maxScore)
    ensures maxScore > 0.0 ==> (c == Primary <==> score >= 0.8 * maxScore)
    ensures maxScore == 0.0 ==> (c == Danger <==> score < 0.0)
  {
    match PercentageOf(score, maxScore)
    case Finite(p) =>
      BarBands(score, maxScore);
      if p < 50.0 then Danger else if p < 80.0 then Warning else Primary
    case PlusInfinity => Primary
    case MinusInfinity => Danger
    case NotANumber => Primary
  }

  lemma BarBands(score: real, maxScore: real)
    ensures maxScore > 0.0 ==>
      (score / maxScore * 100.0 < 50.0 <==> score < 0.5 * maxScore) &&
      (score / maxScore * 100.0 < 80.0 <==> score < 0.8 * maxScore)
  {
    if maxScore > 0.0 {
      Scaled(score, maxScore, 0.5);
      Scaled(score, maxScore, 0.8);
    }
  }

  lemma Scaled(score: real, maxScore: real, c: real)
    requires maxScore > 0.0
    ensures score / maxScore * 100.0 < c * 100.0 <==> score < c * maxScore
  {
    var q := score / maxScore;
    assert q * maxScore == score;
    assert q * maxScore - c * maxScore == (q - c) * maxScore;
    if q < c { assert (q - c) * maxScore < 0.0; } else { assert (q - c) * maxScore >= 0.0; }
  }
}
