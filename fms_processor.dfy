/** The FMS (Functional Movement Screen) processor of RehabHub
    (RehabHub/src/services/assessment/fmsProcessor.ts): it turns the raw
    data an analysis service returns into an FMS assessment record, scores
    it and derives recommendations. */
module FmsProcessor {
  import opened Wrappers
  import opened Strings
  import opened Assessment
  import JsNumber

  // ---------------------------------------------------------------------
  // The raw input (`data: any`)
  // ---------------------------------------------------------------------

  /** One value of `data.additionalMetrics`: a non-object (a number, a
      string, `null`, ...) or an object with the optional fields read. */
  datatype ExtraValue =
    | NotAnObject
    | ObjectValue(name: Option<string>, score: Option<real>, maxScore: Option<real>,
                  category: Option<string>)

  /** The fields of `data` that the processor reads. `additionalMetrics` is
      given in `Object.entries` order, the left side scores in `for ... in`
      order; a missing object is `None`. */
  datatype RawData = RawData(
    movementType: Option<string>, movementName: Option<string>, notes: Option<string>,
    compensationPatterns: Option<seq<string>>,
    hipMobilityScore: Option<real>, kneeStabilityScore: Option<real>,
    shoulderMobilityScore: Option<real>, coreActivationScore: Option<real>,
    posturalAlignmentScore: Option<real>,
    additionalMetrics: Option<seq<(string, ExtraValue)>>,
    leftSideScores: Option<seq<(string, real)>>,
    rightSideScores: Option<map<string, real>>)

  /** `n || d` on a number: `undefined` and 0 are falsy. */
  function NumberOr(n: Option<real>, d: real): (r: real)
    ensures n.Some? && n.value != 0.0 ==> r == n.value
    ensures n.None? || n.value == 0.0 ==> r == d
  {
    if n.Some? && n.value != 0.0 then n.value else d
  }

  /** `s || d` on a string: `undefined` and "" are falsy. */
  function TextOr(s: Option<string>, d: string): (r: string)
    ensures s.Some? && s.value != "" ==> r == s.value
    ensures s.None? || s.value == "" ==> r == d
  {
    if s.Some? && s.value != "" then s.value else d
  }

  // ---------------------------------------------------------------------
  // createScore
  // ---------------------------------------------------------------------

  const Excellent := "优秀"
  const Good := "良好"
  const Fair := "一般"
  const NeedsWork := "需改进"

  /** The description band of `value / maxValue * 100`. With maxValue 0 the
      percentage is +Infinity for a positive value (优秀) and NaN or
      -Infinity otherwise (需改进). */
  function Description(value: real, maxValue: real): string {
    if maxValue == 0.0 then (if value > 0.0 then Excellent else NeedsWork)
    else
      var percentage := value / maxValue * 100.0;
      if percentage >= 80.0 then Excellent
      else if percentage >= 60.0 then Good
      else if percentage >= 40.0 then Fair
      else NeedsWork
  }

  /** The feedback sentence that goes with each description. */
  function FeedbackFor(description: string): string {
    if description == Excellent then "功能表现良好，继续保持"
    else if description == Good then "功能表现良好，但有提升空间"
    else if description == Fair then "功能表现一般，需要针对性训练"
    else "功能表现较差，建议加强相关训练"
  }

  /** `createScore(value, maxValue)`: value and maxValue unchanged, with a
      description and its feedback. For a positive maxValue the bands are
      `value >= 0.8 * maxValue`, `>= 0.6 *`, `>= 0.4 *`. */
  function CreateScore(value: real, maxValue: real): (s: Score)
    ensures s.value == value && s.maxValue == maxValue
    ensures s.description.Some? && s.feedback.Some?
    ensures s.feedback.value == FeedbackFor(s.description.value)
    ensures maxValue > 0.0 ==>
      (s.description.value == Excellent <==> value >= 0.8 * maxValue) &&
      (s.description.value == Good <==> 0.6 * maxValue <= value < 0.8 * maxValue) &&
      (s.description.value == Fair <==> 0.4 * maxValue <= value < 0.6 * maxValue) &&
      (s.description.value == NeedsWork <==> value < 0.4 * maxValue)
    ensures maxValue == 0.0 ==> (s.description.value == Excellent <==> value > 0.0)
    ensures maxValue == 0.0 ==> (s.description.value == NeedsWork <==> value <= 0.0)
  {
    var d := Description(value, maxValue);
    PercentageBands(value, maxValue);
    Score(value, maxValue, Some(d), Some(FeedbackFor(d)))
  }

  /** For a positive maxValue, `value / maxValue * 100 >= p` is
      `value >= p / 100 * maxValue`. */
  lemma PercentageBands(value: real, maxValue: real)
    ensures maxValue > 0.0 ==>
      (value / maxValue * 100.0 >= 80.0 <==> value >= 0.8 * maxValue) &&
      (value / maxValue * 100.0 >= 60.0 <==> value >= 0.6 * maxValue) &&
      (value / maxValue * 100.0 >= 40.0 <==> value >= 0.4 * maxValue)
  {
    if maxValue > 0.0 {
      Band(value, maxValue, 0.8);
      Band(value, maxValue, 0.6);
      Band(value, maxValue, 0.4);
    }
  }

  lemma Band(value: real, maxValue: real, c: real)
    requires maxValue > 0.0
    ensures value / maxValue * 100.0 >= c * 100.0 <==> value >= c * maxValue
  {
    var q := value / maxValue;
    assert q * maxValue == value;
    ScaleBy(q, c, maxValue);
    assert q * 100.0 >= c * 100.0 <==> q >= c;
  }

  lemma ScaleBy(q: real, c: real, m: real)
    requires m > 0.0
    ensures q >= c <==> q * m >= c * m
  {
    assert q * m - c * m == (q - c) * m;
    if q >= c { assert (q - c) * m >= 0.0; } else { assert (q - c) * m < 0.0; }
  }

  // ---------------------------------------------------------------------
  // extractMetrics
  // ---------------------------------------------------------------------

  /** The five canonical metrics, each out of 3, in `metricsMap` order. */
  function Canonical(data: RawData): (ms: seq<Metric>)
    ensures |ms| == 5
    ensures forall i :: 0 <= i < 5 ==> ms[i].id == CanonicalIds[i] && ms[i].score.maxValue == 3.0
    ensures ms[0].score.value == NumberOr(data.hipMobilityScore, 0.0)
    ensures ms[1].score.value == NumberOr(data.kneeStabilityScore, 0.0)
    ensures ms[2].score.value == NumberOr(data.shoulderMobilityScore, 0.0)
    ensures ms[3].score.value == NumberOr(data.coreActivationScore, 0.0)
    ensures ms[4].score.value == NumberOr(data.posturalAlignmentScore, 0.0)
  {
    [ Metric("hip_mobility", "髋关节活动度", CreateScore(NumberOr(data.hipMobilityScore, 0.0), 3.0), "mobility"),
      Metric("knee_stability", "膝关节稳定性", CreateScore(NumberOr(data.kneeStabilityScore, 0.0), 3.0), "stability"),
      Metric("shoulder_mobility", "肩关节活动度", CreateScore(NumberOr(data.shoulderMobilityScore, 0.0), 3.0), "mobility"),
      Metric("core_activation", "核心激活", CreateScore(NumberOr(data.coreActivationScore, 0.0), 3.0), "stability"),
      Metric("postural_alignment", "姿势对齐", CreateScore(NumberOr(data.posturalAlignmentScore, 0.0), 3.0), "stability") ]
  }

  const CanonicalIds: seq<string> :=
    ["hip_mobility", "knee_stability", "shoulder_mobility", "core_activation", "postural_alignment"]

  /** The ids of a metric list. */
  function Ids(ms: seq<Metric>): set<string> {
    set i | 0 <= i < |ms| :: ms[i].id
  }

  /** The metric an extra object entry becomes. */
  function ExtraMetric(key: string, v: ExtraValue): (m: Metric)
    requires v.ObjectValue?
    ensures m.id == key
    ensures m.name == (if v.name.Some? && v.name.value != "" then v.name.value else ReplaceAll(key, '_', ' '))
    ensures m.score.value == NumberOr(v.score, 0.0)
    ensures (v.maxScore.None? || v.maxScore.value == 0.0) ==> m.score.maxValue == 3.0
    ensures (v.category.None? || v.category.value == "") ==> m.category == "general"
  {
    Metric(key, TextOr(v.name, ReplaceAll(key, '_', ' ')),
           CreateScore(NumberOr(v.score, 0.0), NumberOr(v.maxScore, 3.0)),
           TextOr(v.category, "general"))
  }

  /** Whether `metricsMap[key]` is already truthy. */
  predicate Taken(key: string, ms: seq<Metric>) {
    key in Ids(ms) || key in PrototypeNames
  }

  /** The metrics after the entries have been folded into `base`. */
  function WithExtras(base: seq<Metric>, entries: seq<(string, ExtraValue)>): seq<Metric> {
    if entries == [] then base
    else
      var prev := WithExtras(base, entries[..|entries| - 1]);
      var (key, v) := entries[|entries| - 1];
      if !Taken(key, prev) && v.ObjectValue? then prev + [ExtraMetric(key, v)] else prev
  }

  /** `Object.values(metricsMap)` after extraction. */
  function Extracted(data: RawData): seq<Metric> {
    var base := Canonical(data);
    if data.additionalMetrics.Some? then WithExtras(base, data.additionalMetrics.value) else base
  }

  /** `extractMetrics(data)`: the canonical metrics, then each extra object
      entry whose key is not yet taken, in entry order. */
  method ExtractMetrics(data: RawData) returns (metrics: seq<Metric>)
    ensures metrics == Extracted(data)
  {
    metrics := Canonical(data);
    if data.additionalMetrics.Some? {
      var entries := data.additionalMetrics.value;
      var taken := Ids(metrics);
      var i := 0;
      while i < |entries|
        invariant 0 <= i <= |entries|
        invariant metrics == WithExtras(Canonical(data), entries[..i])
        invariant taken == Ids(metrics)
      {
        var (key, v) := entries[i];
        WithExtrasStep(Canonical(data), entries, i);
        if !(key in taken || key in PrototypeNames) && v.ObjectValue? {
          var m := ExtraMetric(key, v);
          IdsAppend(metrics, m);
          metrics := metrics + [m];
          taken := taken + {key};
        }
        i := i + 1;
      }
      assert entries[..|entries|] == entries;
    }
  }

  lemma WithExtrasStep(base: seq<Metric>, entries: seq<(string, ExtraValue)>, i: nat)
    requires i < |entries|
    ensures var prev := WithExtras(base, entries[..i]);
      var (key, v) := entries[i];
      WithExtras(base, entries[..i + 1]) ==
        if !Taken(key, prev) && v.ObjectValue? then prev + [ExtraMetric(key, v)] else prev
  {
    assert entries[..i + 1][..i] == entries[..i];
  }

  lemma IdsAppend(ms: seq<Metric>, m: Metric)
    ensures Ids(ms + [m]) == Ids(ms) + {m.id}
  {
    var ms' := ms + [m];
    forall id | id in Ids(ms') ensures id in Ids(ms) + {m.id} {
      var i :| 0 <= i < |ms'| && ms'[i].id == id;
      if i < |ms| { assert ms[i].id == id; }
    }
    forall id | id in Ids(ms) ensures id in Ids(ms') {
      var i :| 0 <= i < |ms| && ms[i].id == id;
      assert ms'[i].id == id;
    }
    assert ms'[|ms|].id == m.id;
  }

  /** The folding keeps the base in front. */
  lemma {:induction false} WithExtrasKeepsBase(base: seq<Metric>, entries: seq<(string, ExtraValue)>)
    ensures |base| <= |WithExtras(base, entries)| && WithExtras(base, entries)[..|base|] == base
  {
    if entries != [] {
      WithExtrasKeepsBase(base, entries[..|entries| - 1]);
    }
  }

  /** Every metric the folding adds has a key not taken before it, so ids
      stay unique and never hit a prototype name or a base id. */
  lemma {:induction false} WithExtrasFreshKeys(base: seq<Metric>, entries: seq<(string, ExtraValue)>)
    requires forall i, j :: 0 <= i < j < |base| ==> base[i].id != base[j].id
    ensures var ms := WithExtras(base, entries);
      (forall i, j :: 0 <= i < j < |ms| ==> ms[i].id != ms[j].id) &&
      (forall i :: |base| <= i < |ms| ==> ms[i].id !in Ids(base) && ms[i].id !in PrototypeNames)
  {
    if entries != [] {
      var init := entries[..|entries| - 1];
      WithExtrasFreshKeys(base, init);
      WithExtrasKeepsBase(base, init);
      var prev := WithExtras(base, init);
      var (key, v) := entries[|entries| - 1];
      if !Taken(key, prev) && v.ObjectValue? {
        var ms := prev + [ExtraMetric(key, v)];
        forall i | 0 <= i < |prev| ensures prev[i].id != key {
          assert prev[i].id in Ids(prev);
        }
        assert key !in Ids(base);
        assert ms[|prev|].id == key;
      }
    }
  }

  /** Every metric the folding adds is an object entry's metric. */
  lemma {:induction false} WithExtrasFromEntries(base: seq<Metric>, entries: seq<(string, ExtraValue)>)
    ensures var ms := WithExtras(base, entries);
      forall i :: |base| <= i < |ms| ==>
        exists k :: 0 <= k < |entries| && entries[k].1.ObjectValue? &&
                    ms[i] == ExtraMetric(entries[k].0, entries[k].1)
  {
    if entries != [] {
      var init := entries[..|entries| - 1];
      WithExtrasFromEntries(base, init);
      WithExtrasKeepsBase(base, init);
      var prev := WithExtras(base, init);
      var ms := WithExtras(base, entries);
      var last := |entries| - 1;
      forall i | |base| <= i < |ms|
        ensures exists k :: 0 <= k < |entries| && entries[k].1.ObjectValue? &&
                            ms[i] == ExtraMetric(entries[k].0, entries[k].1)
      {
        if i < |prev| {
          assert ms[i] == prev[i];
          var k :| 0 <= k < |init| && init[k].1.ObjectValue? && prev[i] == ExtraMetric(init[k].0, init[k].1);
          assert entries[k] == init[k];
        } else {
          assert ms[i] == ExtraMetric(entries[last].0, entries[last].1);
        }
      }
    }
  }

  /** The extracted metrics hold the five canonical ones first, each out
      of 3; every later one is an extra object entry with a fresh key. */
  lemma ExtractedFacts(data: RawData)
    ensures var ms := Extracted(data);
      |ms| >= 5 &&
      (forall i :: 0 <= i < 5 ==> ms[i].id == CanonicalIds[i] && ms[i].score.maxValue == 3.0) &&
      (forall i, j :: 0 <= i < j < |ms| ==> ms[i].id != ms[j].id) &&
      (forall i :: 5 <= i < |ms| ==>
         ms[i].id !in CanonicalIds && ms[i].id !in PrototypeNames &&
         data.additionalMetrics.Some? &&
         exists k :: 0 <= k < |data.additionalMetrics.value| &&
                     data.additionalMetrics.value[k].1.ObjectValue? &&
                     ms[i] == ExtraMetric(data.additionalMetrics.value[k].0, data.additionalMetrics.value[k].1))
  {
    var base := Canonical(data);
    CanonicalIdsFacts(data);
    if data.additionalMetrics.Some? {
      var entries := data.additionalMetrics.value;
      var ms := WithExtras(base, entries);
      WithExtrasKeepsBase(base, entries);
      assert forall i :: 0 <= i < 5 ==> ms[i] == base[i];
      WithExtrasFreshKeys(base, entries);
      WithExtrasFromEntries(base, entries);
    }
  }

  /** The canonical ids are pairwise different and are exactly the ids of
      the canonical metrics. */
  lemma CanonicalIdsFacts(data: RawData)
    ensures var base := Canonical(data);
      (forall i, j :: 0 <= i < j < |base| ==> base[i].id != base[j].id) &&
      (forall x :: x in Ids(base) <==> x in CanonicalIds)
  {
    var base := Canonical(data);
    assert Ids(base) == set i | 0 <= i < 5 :: CanonicalIds[i];
    assert CanonicalIds[0][0] == 'h' && CanonicalIds[1][0] == 'k' && CanonicalIds[2][0] == 's';
    assert CanonicalIds[3][0] == 'c' && CanonicalIds[4][0] == 'p';
  }

  // ---------------------------------------------------------------------
  // Overall, mobility and stability scores
  // ---------------------------------------------------------------------

  function ValueOf(m: Metric): real { m.score.value }
  function MaxValueOf(m: Metric): real { m.score.maxValue }

  /** `reduce((sum, m) => sum + f(m), 0)`. */
  function SumOf(ms: seq<Metric>, f: Metric -> real): real {
    if ms == [] then 0.0 else f(ms[0]) + SumOf(ms[1..], f)
  }

  lemma {:induction false} SumOfAppend(a: seq<Metric>, b: seq<Metric>, f: Metric -> real)
    ensures SumOf(a + b, f) == SumOf(a, f) + SumOf(b, f)
  {
    if a != [] {
      assert (a + b)[0] == a[0];
      assert (a + b)[1..] == a[1..] + b;
      SumOfAppend(a[1..], b, f);
      calc {
        SumOf(a + b, f);
        f(a[0]) + SumOf(a[1..] + b, f);
        f(a[0]) + SumOf(a[1..], f) + SumOf(b, f);
        SumOf(a, f) + SumOf(b, f);
      }
    } else {
      assert a + b == b;
    }
  }

  /** A sum does not depend on the order of the metrics. */
  lemma {:induction false} SumOfPermutation(a: seq<Metric>, b: seq<Metric>, f: Metric -> real)
    requires multiset(a) == multiset(b)
    ensures SumOf(a, f) == SumOf(b, f)
    decreases |a|
  {
    if a == [] {
      assert |b| == |multiset(b)| == 0;
    } else {
      var x := a[0];
      assert x in multiset(b);
      var k :| 0 <= k < |b| && b[k] == x;
      var rest := b[..k] + b[k + 1..];
      RemoveOne(b, k);
      assert a == [x] + a[1..];
      assert multiset(a[1..]) == multiset(a) - multiset([x]);
      SumOfPermutation(a[1..], rest, f);
      SumOfRemove(b, k, f);
    }
  }

  /** Taking out the element at index k leaves the multiset minus that element. */
  lemma RemoveOne(b: seq<Metric>, k: nat)
    requires k < |b|
    ensures multiset(b[..k] + b[k + 1..]) == multiset(b) - multiset([b[k]])
  {
    assert b == b[..k] + [b[k]] + b[k + 1..];
    assert multiset(b) == multiset(b[..k]) + multiset([b[k]]) + multiset(b[k + 1..]);
  }

  /** The sum with the element at index k taken out. */
  lemma SumOfRemove(b: seq<Metric>, k: nat, f: Metric -> real)
    requires k < |b|
    ensures SumOf(b, f) == f(b[k]) + SumOf(b[..k] + b[k + 1..], f)
  {
    var p, x, q := b[..k], b[k], b[k + 1..];
    assert b == p + ([x] + q);
    SumOfAppend(p, [x] + q, f);
    SumOfCons(x, q, f);
    SumOfAppend(p, q, f);
  }

  lemma SumOfCons(x: Metric, q: seq<Metric>, f: Metric -> real)
    ensures SumOf([x] + q, f) == f(x) + SumOf(q, f)
  {
    assert ([x] + q)[0] == x && ([x] + q)[1..] == q;
  }

  /** `metrics.filter(m => m.category === category)`. */
  function InCategory(ms: seq<Metric>, category: string): (r: seq<Metric>)
    ensures forall m :: m in r <==> m in ms && m.category == category
    ensures |r| <= |ms|
  {
    if ms == [] then []
    else (if ms[0].category == category then [ms[0]] else []) + InCategory(ms[1..], category)
  }

  /** `calculateOverallScore`: the reduce-sums of every metric's value and
      maximum. */
  function OverallScore(ms: seq<Metric>): (s: Score)
    ensures s.value == SumOf(ms, ValueOf) && s.maxValue == SumOf(ms, MaxValueOf)
  {
    CreateScore(SumOf(ms, ValueOf), SumOf(ms, MaxValueOf))
  }

  /** `calculateMobilityScore` / `calculateStabilityScore`: a category score
      counts exactly the metrics of that category, so it equals the
      all-metrics sum with every other metric counted as 0. */
  function CategoryScore(ms: seq<Metric>, category: string): (s: Score)
    ensures s.value == SumOf(ms, ValueIn(category))
    ensures s.maxValue == SumOf(ms, MaxValueIn(category))
  {
    CategorySums(ms, category);
    var of := InCategory(ms, category);
    CreateScore(SumOf(of, ValueOf), SumOf(of, MaxValueOf))
  }

  /** The overall score sums every metric and ignores their order. */
  lemma OverallScoreIsOrderFree(a: seq<Metric>, b: seq<Metric>)
    requires multiset(a) == multiset(b)
    ensures OverallScore(a) == OverallScore(b)
  {
    SumOfPermutation(a, b, ValueOf);
    SumOfPermutation(a, b, MaxValueOf);
  }

  /** A metric's contribution to a category sum: its value inside the
      category, nothing outside. */
  function ValueIn(category: string): Metric -> real {
    (m: Metric) => if m.category == category then m.score.value else 0.0
  }

  function MaxValueIn(category: string): Metric -> real {
    (m: Metric) => if m.category == category then m.score.maxValue else 0.0
  }

  lemma {:induction false} CategorySums(ms: seq<Metric>, category: string)
    ensures SumOf(InCategory(ms, category), ValueOf) == SumOf(ms, ValueIn(category))
    ensures SumOf(InCategory(ms, category), MaxValueOf) == SumOf(ms, MaxValueIn(category))
  {
    if ms != [] {
      CategorySums(ms[1..], category);
      var head := if ms[0].category == category then [ms[0]] else [];
      SumOfAppend(head, InCategory(ms[1..], category), ValueOf);
      SumOfAppend(head, InCategory(ms[1..], category), MaxValueOf);
    }
  }

  /** Changing a metric of another category leaves a category score alone. */
  lemma OtherCategoriesDoNotMatter(ms: seq<Metric>, i: nat, m: Metric, category: string)
    requires i < |ms| && ms[i].category != category && m.category != category
    ensures CategoryScore(ms[i := m], category) == CategoryScore(ms, category)
  {
    InCategoryUpdate(ms, i, m, category);
  }

  lemma {:induction false} InCategoryUpdate(ms: seq<Metric>, i: nat, m: Metric, category: string)
    requires i < |ms| && ms[i].category != category && m.category != category
    ensures InCategory(ms[i := m], category) == InCategory(ms, category)
  {
    if i > 0 {
      assert ms[i := m][1..] == ms[1..][i - 1 := m];
      InCategoryUpdate(ms[1..], i - 1, m, category);
    } else {
      assert ms[i := m][1..] == ms[1..];
    }
  }

  // ---------------------------------------------------------------------
  // checkAsymmetry
  // ---------------------------------------------------------------------

  /** `data.rightSideScores[key] || 0`: a missing key is 0, except a
      prototype member name, whose inherited function turns the
      difference into NaN (never `>= 1`); `None` stands for that NaN. */
  function RightOrZero(right: map<string, real>, key: string): Option<real> {
    if key in right then Some(right[key])
    else if key in PrototypeNames then None
    else Some(0.0)
  }

  /** Whether one left entry differs from its right side by at least 1. */
  predicate Differs(entry: (string, real), right: map<string, real>) {
    var r := RightOrZero(right, entry.0);
    r.Some? && JsNumber.Abs(entry.1 - r.value) >= 1.0
  }

  /** The `for ... in` loop over the left scores, stopping at the first
      entry that differs. */
  function FirstDiffering(left: seq<(string, real)>, right: map<string, real>): (r: bool)
    ensures r <==> exists i :: 0 <= i < |left| && Differs(left[i], right)
  {
    if left == [] then false
    else if Differs(left[0], right) then true
    else
      assert forall i :: 1 <= i < |left| ==> left[i] == left[1..][i - 1];
      FirstDiffering(left[1..], right)
  }

  /** `checkAsymmetry(data)`. */
  function CheckAsymmetry(data: RawData): (r: bool)
    ensures r <==> data.leftSideScores.Some? && data.rightSideScores.Some? &&
                   exists i :: 0 <= i < |data.leftSideScores.value| &&
                               Differs(data.leftSideScores.value[i], data.rightSideScores.value)
  {
    data.leftSideScores.Some? && data.rightSideScores.Some? &&
    FirstDiffering(data.leftSideScores.value, data.rightSideScores.value)
  }

  /** Keys present only on the right side do not matter. */
  lemma RightOnlyKeysIgnored(data: RawData, extra: map<string, real>)
    requires data.leftSideScores.Some? && data.rightSideScores.Some?
    requires forall k :: k in extra ==> k !in data.rightSideScores.value &&
                                        forall i :: 0 <= i < |data.leftSideScores.value| ==>
                                                      data.leftSideScores.value[i].0 != k
    ensures CheckAsymmetry(data) ==
            CheckAsymmetry(data.(rightSideScores := Some(data.rightSideScores.value + extra)))
  {
    var left := data.leftSideScores.value;
    var right := data.rightSideScores.value;
    forall i | 0 <= i < |left| ensures Differs(left[i], right) == Differs(left[i], right + extra) {
      assert left[i].0 !in extra;
      assert RightOrZero(right, left[i].0) == RightOrZero(right + extra, left[i].0);
    }
  }

  /** A left score of 3 with no right counterpart is an asymmetry; a
      difference below 1 is not. */
  lemma AsymmetrySamples(data: RawData)
    ensures var d := data.(leftSideScores := Some([("deep_squat", 3.0)]), rightSideScores := Some(map[]));
            CheckAsymmetry(d)
    ensures var d := data.(leftSideScores := Some([("deep_squat", 2.0)]),
                           rightSideScores := Some(map["deep_squat" := 1.5]));
            !CheckAsymmetry(d)
    ensures !CheckAsymmetry(data.(leftSideScores := None))
  {
    var d := data.(leftSideScores := Some([("deep_squat", 3.0)]), rightSideScores := Some(map[]));
    assert "deep_squat" !in PrototypeNames;
    assert Differs(d.leftSideScores.value[0], d.rightSideScores.value);
  }

  // ---------------------------------------------------------------------
  // generateRecommendations
  // ---------------------------------------------------------------------

  const WeakPrefix := "加强以下薄弱环节的训练: "
  const BalanceTraining := "针对肢体不对称进行平衡训练"
  const MobilityTraining := "增加关节活动度训练"
  const StabilityTraining := "加强核心和稳定性训练"
  const KeepPlan := "继续保持当前训练计划"
  const RaiseDifficulty := "考虑增加训练难度和多样性"

  /** `metrics.filter(m => m.score.value < 2)`. */
  function LowScoring(ms: seq<Metric>): (r: seq<Metric>)
    ensures forall m :: m in r <==> m in ms && m.score.value < 2.0
    ensures |r| <= |ms|
  {
    if ms == [] then []
    else (if ms[0].score.value < 2.0 then [ms[0]] else []) + LowScoring(ms[1..])
  }

  function Names(ms: seq<Metric>): (r: seq<string>)
    ensures |r| == |ms| && forall i :: 0 <= i < |ms| ==> r[i] == ms[i].name
  {
    seq(|ms|, i requires 0 <= i < |ms| => ms[i].name)
  }

  predicate HasBelow3(ms: seq<Metric>, category: string) {
    exists i :: 0 <= i < |ms| && ms[i].category == category && ms[i].score.value < 3.0
  }

  predicate AllAtLeast2(ms: seq<Metric>) {
    forall i :: 0 <= i < |ms| ==> ms[i].score.value >= 2.0
  }

  /** Take at most the first `n`. */
  function Take<T>(xs: seq<T>, n: nat): (r: seq<T>)
    ensures |r| == if |xs| <= n then |xs| else n
    ensures r <= xs
  {
    if |xs| <= n then xs else xs[..n]
  }

  /** Every recommendation in push order, before the cut to 5. */
  function AllRecommendations(ms: seq<Metric>, asymmetryDetected: bool): seq<string> {
    var low := LowScoring(ms);
    (if |low| > 0 then [WeakPrefix + Join(Names(low), ", ")] else []) +
    (if asymmetryDetected then [BalanceTraining] else []) +
    (if HasBelow3(ms, "mobility") then [MobilityTraining] else []) +
    (if HasBelow3(ms, "stability") then [StabilityTraining] else []) +
    (if AllAtLeast2(ms) then [KeepPlan, RaiseDifficulty] else [])
  }

  /** `generateRecommendations(metrics, asymmetryDetected)`. */
  function GenerateRecommendations(ms: seq<Metric>, asymmetryDetected: bool): (r: seq<string>)
    ensures |r| <= 5
    ensures r <= AllRecommendations(ms, asymmetryDetected)
  {
    Take(AllRecommendations(ms, asymmetryDetected), 5)
  }

  /** The weak-metric line leads whenever some metric is below 2; the
      balance line is there iff an asymmetry was detected; the two
      maintenance lines close the list iff every metric is at least 2. */
  lemma {:induction false} RecommendationOrder(ms: seq<Metric>, asymmetryDetected: bool)
    ensures var r := GenerateRecommendations(ms, asymmetryDetected);
      (!AllAtLeast2(ms) <==> |r| > 0 && r[0] == WeakPrefix + Join(Names(LowScoring(ms)), ", "))
    ensures var r := GenerateRecommendations(ms, asymmetryDetected);
      (asymmetryDetected <==> BalanceTraining in r)
    ensures var r := GenerateRecommendations(ms, asymmetryDetected);
      (AllAtLeast2(ms) <==> KeepPlan in r && RaiseDifficulty in r)
    ensures var r := GenerateRecommendations(ms, asymmetryDetected);
      (AllAtLeast2(ms) ==> |r| >= 2 && r[|r| - 2] == KeepPlan && r[|r| - 1] == RaiseDifficulty)
  {
    var low := LowScoring(ms);
    var all := AllRecommendations(ms, asymmetryDetected);
    var weak := WeakPrefix + Join(Names(low), ", ");
    RecommendationsFit(ms, asymmetryDetected);
    LinesDistinct(weak);
    if AllAtLeast2(ms) {
      assert |low| == 0;
    } else {
      var j :| 0 <= j < |ms| && ms[j].score.value < 2.0;
      assert ms[j] in low;
      assert all[0] == weak;
    }
  }

  /** At most five lines are ever pushed, so the cut to 5 drops nothing. */
  lemma RecommendationsFit(ms: seq<Metric>, asymmetryDetected: bool)
    ensures GenerateRecommendations(ms, asymmetryDetected) == AllRecommendations(ms, asymmetryDetected)
  {
    var low := LowScoring(ms);
    if AllAtLeast2(ms) {
      NoneLow(ms);
    } else {
      var j :| 0 <= j < |ms| && ms[j].score.value < 2.0;
      assert ms[j] in low;
    }
  }

  lemma {:induction false} NoneLow(ms: seq<Metric>)
    requires AllAtLeast2(ms)
    ensures LowScoring(ms) == []
  {
    if ms != [] {
      assert ms[0].score.value >= 2.0;
      assert forall i :: 0 <= i < |ms| - 1 ==> ms[1..][i] == ms[i + 1];
      NoneLow(ms[1..]);
    }
  }

  /** The fixed lines and any weak-metric line are pairwise different. */
  lemma LinesDistinct(weak: string)
    requires WeakPrefix <= weak
    ensures weak != BalanceTraining && weak != KeepPlan && weak != RaiseDifficulty
    ensures weak != MobilityTraining && weak != StabilityTraining
    ensures BalanceTraining != MobilityTraining && BalanceTraining != StabilityTraining
    ensures BalanceTraining != KeepPlan && BalanceTraining != RaiseDifficulty
    ensures KeepPlan != MobilityTraining && KeepPlan != StabilityTraining && KeepPlan != RaiseDifficulty
    ensures RaiseDifficulty != MobilityTraining && RaiseDifficulty != StabilityTraining
  {
    assert WeakPrefix[0] == '加' && WeakPrefix[2] == '以';
    assert weak[0] == '加' && weak[2] == '以';
    assert StabilityTraining[2] == '核';
    assert BalanceTraining[0] == '针' && MobilityTraining[0] == '增' && StabilityTraining[0] == '加';
    assert KeepPlan[0] == '继' && RaiseDifficulty[0] == '考';
  }

  // ---------------------------------------------------------------------
  // getRecommendedExercises
  // ---------------------------------------------------------------------

  /** The exercises one low-scoring metric asks for. */
  function ExercisesFor(m: Metric): (r: seq<string>)
    ensures |r| >= 1
  {
    if m.id == "hip_mobility" then ["髋关节屈曲活动度训练", "髋屈肌伸展"]
    else if m.id == "knee_stability" then ["单腿站立平衡训练", "膝关节稳定性强化"]
    else if m.id == "core_activation" then ["核心稳定性训练", "腹横肌激活练习"]
    else [m.name + " 相关功能训练"]
  }

  /** The pushes for the first metrics of a list. */
  function Pushed(low: seq<Metric>): seq<string> {
    if low == [] then [] else Pushed(low[..|low| - 1]) + ExercisesFor(low[|low| - 1])
  }

  /** `[...new Set(xs)]`: each value once, at its first occurrence. */
  function Dedup(xs: seq<string>): (r: seq<string>)
    ensures forall i, j :: 0 <= i < j < |r| ==> r[i] != r[j]
    ensures forall x :: x in r <==> x in xs
    ensures |r| <= |xs|
  {
    if xs == [] then []
    else
      var d := Dedup(xs[..|xs| - 1]);
      var x := xs[|xs| - 1];
      assert forall y :: y in xs <==> y in xs[..|xs| - 1] || y == x;
      if x in d then d else d + [x]
  }

  /** Deduplicating a prefix gives a prefix: the order is that of first
      occurrences. */
  lemma {:induction false} DedupKeepsFirstOccurrenceOrder(xs: seq<string>, k: nat)
    requires k <= |xs|
    ensures Dedup(xs[..k]) <= Dedup(xs)
    decreases |xs|
  {
    if k < |xs| {
      var init := xs[..|xs| - 1];
      assert xs[..k] == init[..k];
      DedupKeepsFirstOccurrenceOrder(init, k);
    } else {
      assert xs[..k] == xs;
    }
  }

  /** The pushes of one low metric onto the recommendations, one
      `recommendations.push` at a time. */
  method PushExercises(recommendations: seq<string>, m: Metric) returns (r: seq<string>)
    ensures r == recommendations + ExercisesFor(m)
  {
    r := recommendations;
    if m.id == "hip_mobility" {
      r := r + ["髋关节屈曲活动度训练"];
      r := r + ["髋屈肌伸展"];
    } else if m.id == "knee_stability" {
      r := r + ["单腿站立平衡训练"];
      r := r + ["膝关节稳定性强化"];
    } else if m.id == "core_activation" {
      r := r + ["核心稳定性训练"];
      r := r + ["腹横肌激活练习"];
    } else {
      r := r + [m.name + " 相关功能训练"];
    }
  }

  lemma PushedStep(low: seq<Metric>, i: nat)
    requires i < |low|
    ensures Pushed(low[..i + 1]) == Pushed(low[..i]) + ExercisesFor(low[i])
  {
    assert low[..i + 1][..i] == low[..i];
  }

  /** `getRecommendedExercises(assessment)`. */
  method GetRecommendedExercises(assessment: AssessmentRecord) returns (exercises: seq<string>)
    ensures exercises == Take(Dedup(Pushed(LowScoring(assessment.metrics))), 5)
  {
    var low := LowScoring(assessment.metrics);
    var recommendations: seq<string> := [];
    var i := 0;
    while i < |low|
      invariant 0 <= i <= |low|
      invariant recommendations == Pushed(low[..i])
    {
      PushedStep(low, i);
      recommendations := PushExercises(recommendations, low[i]);
      i := i + 1;
    }
    assert low[..|low|] == low;
    exercises := Take(Dedup(recommendations), 5);
  }

  lemma {:induction false} PushedFrom(low: seq<Metric>, x: string)
    requires x in Pushed(low)
    ensures exists i :: 0 <= i < |low| && x in ExercisesFor(low[i])
  {
    var init := low[..|low| - 1];
    if x in Pushed(init) {
      PushedFrom(init, x);
      var i :| 0 <= i < |init| && x in ExercisesFor(init[i]);
      assert low[i] == init[i];
    } else {
      assert x in ExercisesFor(low[|low| - 1]);
    }
  }

  /** The recommended exercises come only from metrics below 2, appear
      once each, and number at most five. */
  lemma ExercisesFacts(assessment: AssessmentRecord)
    ensures var r := Take(Dedup(Pushed(LowScoring(assessment.metrics))), 5);
      |r| <= 5 &&
      (forall i, j :: 0 <= i < j < |r| ==> r[i] != r[j]) &&
      (forall x :: x in r ==> exists m :: m in assessment.metrics && m.score.value < 2.0 &&
                                         x in ExercisesFor(m))
  {
    var low := LowScoring(assessment.metrics);
    var d := Dedup(Pushed(low));
    var r := Take(d, 5);
    forall x | x in r
      ensures exists m :: m in assessment.metrics && m.score.value < 2.0 && x in ExercisesFor(m)
    {
      assert x in d;
      PushedFrom(low, x);
      var i :| 0 <= i < |low| && x in ExercisesFor(low[i]);
      assert low[i] in low;
    }
  }

  /** With no metric below 2 there is nothing to recommend. */
  lemma NoExercisesWhenAllAtLeast2(assessment: AssessmentRecord)
    requires AllAtLeast2(assessment.metrics)
    ensures Take(Dedup(Pushed(LowScoring(assessment.metrics))), 5) == []
  {
  }

  // ---------------------------------------------------------------------
  // process
  // ---------------------------------------------------------------------

  /** `process(data)`; the clock's `Date.now()` and ISO time are `now` and
      `isoTime`. */
  method Process(data: RawData, now: nat, isoTime: string) returns (a: AssessmentRecord)
    ensures a.id == "fms_" + NatToString(now) && a.kind == "FMS" && a.timestamp == isoTime
    ensures a.movementType == TextOr(data.movementType, "unknown")
    ensures a.movementName == TextOr(data.movementName, "Unknown Movement")
    ensures a.metrics == Extracted(data)
    ensures a.overallScore == OverallScore(a.metrics)
    ensures a.fms == Some(FmsPart(CategoryScore(a.metrics, "mobility"), CategoryScore(a.metrics, "stability"),
                                  CheckAsymmetry(data),
                                  Some(if data.compensationPatterns.Some? then data.compensationPatterns.value else [])))
    ensures a.recommendations == Some(GenerateRecommendations(a.metrics, CheckAsymmetry(data)))
    ensures a.notes == Some(TextOr(data.notes, ""))
  {
    var metrics := ExtractMetrics(data);
    var overall := OverallScore(metrics);
    var mobility := CategoryScore(metrics, "mobility");
    var stability := CategoryScore(metrics, "stability");
    var asymmetry := CheckAsymmetry(data);
    var patterns := if data.compensationPatterns.Some? then data.compensationPatterns.value else [];
    a := AssessmentRecord(
      "fms_" + NatToString(now), "FMS",
      TextOr(data.movementType, "unknown"), TextOr(data.movementName, "Unknown Movement"), isoTime,
      metrics, overall, Some(GenerateRecommendations(metrics, asymmetry)), Some(TextOr(data.notes, "")),
      Some(FmsPart(mobility, stability, asymmetry, Some(patterns))));
  }
}
