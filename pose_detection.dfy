/** Keypoint validation, per-frame movement scoring and the detector loader
    with its retry loop (src/services/poseDetection.ts). */
module PoseDetection {
  import opened Wrappers
  import opened JsNumber
  import opened Strings
  import opened Keypoints

  /** `POSE_DETECTION_CONFIG.minPoseScore`. */
  const MinPoseScore: real := 0.2

  /** The COCO order in which MoveNet reports its 17 keypoints. */
  const KeypointNames: seq<string> := [
    "nose", "left_eye", "right_eye", "left_ear", "right_ear",
    "left_shoulder", "right_shoulder", "left_elbow", "right_elbow",
    "left_wrist", "right_wrist", "left_hip", "right_hip",
    "left_knee", "right_knee", "left_ankle", "right_ankle"
  ]

  // ---------------------------------------------------------------------
  // Raw model output and its validation
  // ---------------------------------------------------------------------

  /** One field of a raw keypoint: `typeof v === 'number'` (NaN included) or not. */
  datatype RawField = Number(n: Num) | NotNumber

  /** An entry of `pose.keypoints`: null/undefined, or an object with x, y, score. */
  datatype RawKeypoint = Absent | Raw(x: RawField, y: RawField, score: RawField)

  /** An entry of the pose list: null, an object without a keypoint array, or a pose. */
  datatype RawPose = NullPose | NoKeypointArray | Pose(keypoints: seq<RawKeypoint>)

  /** A keypoint as convertPoseToKeypoints writes it out; the score can still be NaN. */
  datatype Detected = Detected(name: string, x: real, y: real, score: Num)

  /** x or y is a number, not NaN, and within [0, 1]. */
  predicate CoordinateOk(f: RawField) {
    f.Number? && f.n.Fin? && 0.0 <= f.n.v <= 1.0
  }

  /** The checks of the forEach body, in the source's order; a NaN score is
      not caught because `NaN <= 0.2` is false. */
  predicate Accepted(k: RawKeypoint) {
    && k.Raw?
    && k.x.Number? && k.y.Number?
    && k.score.Number?
    && CoordinateOk(k.x) && CoordinateOk(k.y)
    && !AtMost(k.score.n, MinPoseScore)
  }

  /** `keypointNames[index] || \`keypoint_${index}\``. */
  function KeypointName(index: nat): (name: string)
    ensures index < 17 ==> name == KeypointNames[index]
    ensures index >= 17 ==> name == "keypoint_" + NatToString(index)
  {
    if index < |KeypointNames| then KeypointNames[index] else "keypoint_" + NatToString(index)
  }

  function ToDetected(k: RawKeypoint, index: nat): Detected
    requires Accepted(k)
  {
    Detected(KeypointName(index), k.x.n.v, k.y.n.v, k.score.n)
  }

  /** The input indices below n whose entries pass validation, ascending. */
  function Survivors(kps: seq<RawKeypoint>, n: nat): seq<nat>
    requires n <= |kps|
  {
    if n == 0 then []
    else Survivors(kps, n - 1) + (if Accepted(kps[n - 1]) then [n - 1] else [])
  }

  lemma {:induction false} SurvivorsFacts(kps: seq<RawKeypoint>, n: nat)
    requires n <= |kps|
    ensures var s := Survivors(kps, n);
      && |s| <= n
      && (forall j :: 0 <= j < |s| ==> s[j] < n && Accepted(kps[s[j]]))
      && (forall j, k :: 0 <= j < k < |s| ==> s[j] < s[k])
      && (forall i :: 0 <= i < n ==> (Accepted(kps[i]) <==> i in s))
  {
    if n > 0 {
      SurvivorsFacts(kps, n - 1);
    }
  }

  /** Survivors written out, each named by its input index. */
  function Emit(kps: seq<RawKeypoint>, idx: seq<nat>): seq<Detected>
    requires forall j :: 0 <= j < |idx| ==> idx[j] < |kps| && Accepted(kps[idx[j]])
  {
    seq(|idx|, j requires 0 <= j < |idx| => ToDetected(kps[idx[j]], idx[j]))
  }

  /** The keypoint array of the first pose, if the list and that pose have one. */
  function FirstPoseKeypoints(poses: Option<seq<RawPose>>): Option<seq<RawKeypoint>> {
    if poses.None? || |poses.value| == 0 then None
    else match poses.value[0]
      case Pose(kps) => Some(kps)
      case _ => None
  }

  /** What convertPoseToKeypoints returns. */
  function Converted(poses: Option<seq<RawPose>>): seq<Detected> {
    match FirstPoseKeypoints(poses)
    case None => []
    case Some(kps) =>
      SurvivorsFacts(kps, |kps|);
      Emit(kps, Survivors(kps, |kps|))
  }

  /** convertPoseToKeypoints: validates the first pose entry by entry and
      pushes each survivor, never failing on a malformed entry. */
  method ConvertPoseToKeypoints(poses: Option<seq<RawPose>>) returns (keypoints: seq<Detected>)
    ensures keypoints == Converted(poses)
  {
    if poses.None? || |poses.value| == 0 {
      return [];
    }
    var pose := poses.value[0];
    if !pose.Pose? {
      return [];
    }
    var raw := pose.keypoints;
    keypoints := [];
    var index := 0;
    while index < |raw|
      invariant 0 <= index <= |raw|
      invariant forall j :: 0 <= j < |Survivors(raw, index)| ==>
                  Survivors(raw, index)[j] < |raw| && Accepted(raw[Survivors(raw, index)[j]])
      invariant keypoints == Emit(raw, Survivors(raw, index))
    {
      SurvivorsFacts(raw, index + 1);
      var k := raw[index];
      var keep := true;
      if k.Absent? {
        keep := false;
      } else if !k.x.Number? || !k.y.Number? {
        keep := false;
      } else if !k.score.Number? {
        keep := false;
      } else if !CoordinateOk(k.x) || !CoordinateOk(k.y) {
        keep := false;
      } else if AtMost(k.score.n, MinPoseScore) {
        keep := false;
      }
      if keep {
        keypoints := keypoints + [ToDetected(k, index)];
      }
      index := index + 1;
    }
  }

  /** Every emitted keypoint has coordinates in [0, 1] and a score that is
      above the threshold or NaN. */
  lemma ConvertedBounds(poses: Option<seq<RawPose>>)
    ensures forall d :: d in Converted(poses) ==>
      0.0 <= d.x <= 1.0 && 0.0 <= d.y <= 1.0 && (d.score.NaN? || d.score.v > MinPoseScore)
  {
    match FirstPoseKeypoints(poses)
    case None =>
    case Some(kps) =>
      SurvivorsFacts(kps, |kps|);
  }

  /** The output is the order-preserving subsequence of the first pose's
      entries that pass validation, each named by its INPUT index. */
  lemma ConvertedIsIndexedSubsequence(poses: Option<seq<RawPose>>, kps: seq<RawKeypoint>)
    requires FirstPoseKeypoints(poses) == Some(kps)
    ensures var out, idx := Converted(poses), Survivors(kps, |kps|);
      && |out| == |idx| <= |kps|
      && (forall j, k :: 0 <= j < k < |idx| ==> idx[j] < idx[k])
      && (forall i :: 0 <= i < |kps| ==> (Accepted(kps[i]) <==> i in idx))
      && (forall j :: 0 <= j < |out| ==>
            idx[j] < |kps| && Accepted(kps[idx[j]]) &&
            out[j] == Detected(KeypointName(idx[j]), kps[idx[j]].x.n.v, kps[idx[j]].y.n.v, kps[idx[j]].score.n))
  {
    SurvivorsFacts(kps, |kps|);
  }

  /** Only the first pose is read; a missing or empty list, or a first pose
      without a keypoint array, gives []. */
  lemma ConvertedIgnoresOtherPoses(first: RawPose, rest: seq<RawPose>)
    ensures Converted(Some([first] + rest)) == Converted(Some([first]))
    ensures Converted(None) == [] && Converted(Some([])) == []
    ensures !first.Pose? ==> Converted(Some([first] + rest)) == []
  {
    assert ([first] + rest)[0] == first;
  }

  /** Finding: an entry whose score is NaN passes validation as written. */
  lemma NaNScoreSurvives()
    ensures Converted(Some([Pose([Raw(Number(Fin(0.5)), Number(Fin(0.5)), Number(NaN))])]))
            == [Detected("nose", 0.5, 0.5, NaN)]
  {
    var kps := [Raw(Number(Fin(0.5)), Number(Fin(0.5)), Number(NaN))];
    assert Accepted(kps[0]);
    assert Survivors(kps, 1) == [0];
  }

  /** Corrected conversion: the as-written survivors without those whose
      score is NaN, as validated keypoints. */
  function ConvertPoseToKeypointsChecked(poses: Option<seq<RawPose>>): (keypoints: seq<Keypoint>)
    ensures forall k :: k in keypoints ==>
      k.score.Some? && k.score.value > MinPoseScore && 0.0 <= k.x <= 1.0 && 0.0 <= k.y <= 1.0
    ensures (forall d :: d in Converted(poses) ==> d.score.Fin?) ==>
      |keypoints| == |Converted(poses)| &&
      forall j :: 0 <= j < |keypoints| ==>
        var d := Converted(poses)[j]; keypoints[j] == Keypoint(d.name, d.x, d.y, Some(d.score.v))
  {
    ConvertedBounds(poses);
    DropNaNScores(Converted(poses))
  }

  function DropNaNScores(ds: seq<Detected>): (keypoints: seq<Keypoint>)
    requires forall d :: d in ds ==>
      0.0 <= d.x <= 1.0 && 0.0 <= d.y <= 1.0 && (d.score.NaN? || d.score.v > MinPoseScore)
    ensures forall k :: k in keypoints ==>
      k.score.Some? && k.score.value > MinPoseScore && 0.0 <= k.x <= 1.0 && 0.0 <= k.y <= 1.0
    ensures (forall d :: d in ds ==> d.score.Fin?) ==>
      |keypoints| == |ds| &&
      forall j :: 0 <= j < |ds| ==> keypoints[j] == Keypoint(ds[j].name, ds[j].x, ds[j].y, Some(ds[j].score.v))
  {
    if ds == [] then []
    else
      var rest := DropNaNScores(ds[1..]);
      assert forall d :: d in ds[1..] ==> d in ds;
      if ds[0].score.NaN? then rest
      else [Keypoint(ds[0].name, ds[0].x, ds[0].y, Some(ds[0].score.v))] + rest
  }

  /** The corrected conversion drops the NaN-scored entry. */
  lemma NaNScoreDroppedWhenChecked()
    ensures ConvertPoseToKeypointsChecked(Some([Pose([Raw(Number(Fin(0.5)), Number(Fin(0.5)), Number(NaN))])])) == []
  {
    NaNScoreSurvives();
  }

  // ---------------------------------------------------------------------
  // Per-frame movement evaluation
  // ---------------------------------------------------------------------

  /** The floating-point angle of calculateAngle once all three points exist
      (vector dot product, square roots and `Math.acos`, in degrees). It has
      no guard, so it may be NaN. */
  type Geometry = (Keypoint, Keypoint, Keypoint) -> Num

  /** calculateAngle of this file: 0 if a point is missing, else the geometry. */
  function CalculateAngle(a: Option<Keypoint>, b: Option<Keypoint>, c: Option<Keypoint>, geometry: Geometry): Num {
    if a.None? || b.None? || c.None? then Fin(0.0) else geometry(a.value, b.value, c.value)
  }

  datatype Details = NoDetails | Details(keypointCount: nat, avgConfidence: real)

  datatype Evaluation = Evaluation(score: real, feedback: string, angles: map<string, Num>, details: Details)

  const DefaultFeedback: string := "无法评估动作，请确保全身在摄像头视野内"
  const SquatGoodFeedback: string := "深蹲动作标准，膝盖角度良好"
  const SquatFairFeedback: string := "深蹲动作基本正确，可以进一步降低身体"
  const SquatShallowFeedback: string := "深蹲深度不够，请尝试降低身体重心"
  const ShoulderHighFeedback: string := "肩部灵活性很好，手臂抬起高度足够"
  const ShoulderMidFeedback: string := "肩部灵活性一般，可以尝试抬高手臂"
  const ShoulderLowFeedback: string := "肩部灵活性需要改善，请尝试抬高手臂超过肩膀"
  const GenericFeedback: string := "动作检测完成，保持当前姿势"

  /** Mean of `kp.score || 0`. */
  function MeanConfidence(kps: seq<Keypoint>): real
    requires |kps| > 0
  {
    SumScores(kps) / |kps| as real
  }

  /** The deep-squat band of the average knee angle (NaN falls through). */
  function SquatScore(avgKnee: Num): real {
    if InRange(avgKnee, 90.0, 100.0) then 0.9
    else if InRange(avgKnee, 80.0, 110.0) then 0.7
    else 0.5
  }

  function SquatFeedback(avgKnee: Num): string {
    if InRange(avgKnee, 90.0, 100.0) then SquatGoodFeedback
    else if InRange(avgKnee, 80.0, 110.0) then SquatFairFeedback
    else SquatShallowFeedback
  }

  function ShoulderFeedback(score: real): string {
    if score > 0.8 then ShoulderHighFeedback
    else if score > 0.5 then ShoulderMidFeedback
    else ShoulderLowFeedback
  }

  /** The deep-squat rule: both knee angles and the band of their mean. */
  function SquatEvaluation(kps: seq<Keypoint>, geometry: Geometry, details: Details): Evaluation {
    var left := CalculateAngle(FindFirst(kps, "left_hip"), FindFirst(kps, "left_knee"), FindFirst(kps, "left_ankle"), geometry);
    var right := CalculateAngle(FindFirst(kps, "right_hip"), FindFirst(kps, "right_knee"), FindFirst(kps, "right_ankle"), geometry);
    var avg := Mean2(left, right);
    Evaluation(SquatScore(avg), SquatFeedback(avg), map["left_knee" := left, "right_knee" := right], details)
  }

  /** The shoulder-mobility rule: the mean wrist raise over 200, capped at 1,
      once both shoulders and both wrists are found. */
  function ShoulderEvaluation(ls: Option<Keypoint>, rs: Option<Keypoint>, lw: Option<Keypoint>, rw: Option<Keypoint>,
                              details: Details): Evaluation {
    if ls.Some? && rs.Some? && lw.Some? && rw.Some? then
      var avgRaise := ((ls.value.y - lw.value.y) + (rs.value.y - rw.value.y)) / 2.0;
      var score := Min(1.0, avgRaise / 200.0);
      Evaluation(score, ShoulderFeedback(score), map[], details)
    else
      Evaluation(0.5, DefaultFeedback, map[], details)
  }

  /** evaluateMovement: the rule table by movement type. */
  function EvaluateMovement(kps: seq<Keypoint>, movementType: string, geometry: Geometry): (r: Evaluation)
    ensures r.angles.Keys <= {"left_knee", "right_knee"}
    ensures movementType != "deep-squat" ==> r.angles == map[]
  {
    if |kps| < 10 then Evaluation(0.5, DefaultFeedback, map[], NoDetails)
    else
      var details := Details(|kps|, MeanConfidence(kps));
      if movementType == "deep-squat" then SquatEvaluation(kps, geometry, details)
      else if movementType == "shoulder-mobility" then
        ShoulderEvaluation(FindFirst(kps, "left_shoulder"), FindFirst(kps, "right_shoulder"),
                           FindFirst(kps, "left_wrist"), FindFirst(kps, "right_wrist"), details)
      else Evaluation(Min(1.0, MeanConfidence(kps)), GenericFeedback, map[], details)
  }

  /** Fewer than 10 keypoints: the fixed default result. */
  lemma EvaluateTooFewKeypoints(kps: seq<Keypoint>, movementType: string, geometry: Geometry)
    requires |kps| < 10
    ensures EvaluateMovement(kps, movementType, geometry) == Evaluation(0.5, DefaultFeedback, map[], NoDetails)
  {
  }

  /** With at least 10 keypoints every branch records the input length and
      the mean confidence, and no score exceeds 1. */
  lemma EvaluateDetails(kps: seq<Keypoint>, movementType: string, geometry: Geometry)
    requires |kps| >= 10
    ensures var r := EvaluateMovement(kps, movementType, geometry);
      r.details == Details(|kps|, MeanConfidence(kps)) && r.score <= 1.0
  {
  }

  /** Deep squat: both knee angles are recorded and the score is the band of
      their average: [90,100] gives 0.9, else [80,110] gives 0.7, else 0.5. */
  lemma DeepSquatBands(kps: seq<Keypoint>, geometry: Geometry)
    requires |kps| >= 10
    ensures var r := EvaluateMovement(kps, "deep-squat", geometry);
      && r.angles.Keys == {"left_knee", "right_knee"}
      && var avg := Mean2(r.angles["left_knee"], r.angles["right_knee"]);
      && (InRange(avg, 90.0, 100.0) ==> r.score == 0.9)
      && (!InRange(avg, 90.0, 100.0) && InRange(avg, 80.0, 110.0) ==> r.score == 0.7)
      && (!InRange(avg, 80.0, 110.0) ==> r.score == 0.5)
  {
  }

  /** The three sample knee angles: 95 gives 0.9, 105 gives 0.7, 60 gives 0.5;
      a missing knee counts as angle 0. */
  lemma DeepSquatSamples()
    ensures SquatScore(Mean2(Fin(95.0), Fin(95.0))) == 0.9
    ensures SquatScore(Mean2(Fin(105.0), Fin(105.0))) == 0.7
    ensures SquatScore(Mean2(Fin(60.0), Fin(60.0))) == 0.5
    ensures SquatScore(Mean2(NaN, Fin(95.0))) == 0.5
  {
  }

  /** Shoulder mobility is scored by its own rule from the first left and
      right shoulders and wrists, once at least 10 keypoints are present. */
  lemma ShoulderMobilityDispatch(kps: seq<Keypoint>, geometry: Geometry)
    requires |kps| >= 10
    ensures EvaluateMovement(kps, "shoulder-mobility", geometry) ==
            ShoulderEvaluation(FindFirst(kps, "left_shoulder"), FindFirst(kps, "right_shoulder"),
                               FindFirst(kps, "left_wrist"), FindFirst(kps, "right_wrist"),
                               Details(|kps|, MeanConfidence(kps)))
  {
    assert "shoulder-mobility" != "deep-squat" by {
      assert "shoulder-mobility"[0] != "deep-squat"[0];
    }
  }

  /** Shoulder mobility changes the score only when both shoulders and both
      wrists are found; then it is min(1, mean raise / 200). */
  lemma ShoulderEvaluationScore(ls: Option<Keypoint>, rs: Option<Keypoint>, lw: Option<Keypoint>, rw: Option<Keypoint>,
                                details: Details)
    ensures var r := ShoulderEvaluation(ls, rs, lw, rw, details);
      && r.angles == map[]
      && (ls.Some? && rs.Some? && lw.Some? && rw.Some? ==>
            r.score == Min(1.0, ((ls.value.y - lw.value.y) + (rs.value.y - rw.value.y)) / 2.0 / 200.0)
            && r.score <= 1.0)
      && (!(ls.Some? && rs.Some? && lw.Some? && rw.Some?) ==> r.score == 0.5 && r.feedback == DefaultFeedback)
  {
  }

  /** Any other movement type scores by mean confidence, capped at 1, with a
      missing score counted as 0. */
  lemma OtherMovementScore(kps: seq<Keypoint>, movementType: string, geometry: Geometry)
    requires |kps| >= 10 && movementType != "deep-squat" && movementType != "shoulder-mobility"
    ensures var r := EvaluateMovement(kps, movementType, geometry);
      r.score == Min(1.0, SumScores(kps) / |kps| as real) && r.feedback == GenericFeedback && r.angles == map[]
  {
  }

  // ---------------------------------------------------------------------
  // Detector loading with retries
  // ---------------------------------------------------------------------

  datatype Backend = WebGL | Cpu

  /** The detector handle that createDetector yields. */
  datatype DetectorHandle = DetectorHandle(backend: Backend, instance: nat)

  /** One try of the loop body: tf.ready, the WebGL set-up (or the CPU
      fallback) and createDetector, taken together. */
  datatype Attempt = Loaded(detector: DetectorHandle) | AttemptFailed(error: string)

  const MaxRetries: nat := 3
  const LoadFailedTag: string := "MODEL_LOAD_FAILED"

  datatype LoadOutcome = Ready(detector: DetectorHandle) | LoadFailed(tag: string, originalError: string)

  /** The outcome of one run of the retry loop, the attempts it made and the
      waits (in ms) between them. */
  datatype LoadRun = LoadRun(outcome: LoadOutcome, attempts: nat, waits: seq<nat>)

  /** The retry loop from attempt number `retries` on. */
  function LoadFrom(attempt: nat -> Attempt, retries: nat): LoadRun
    requires retries < MaxRetries
    decreases MaxRetries - retries
  {
    match attempt(retries)
    case Loaded(d) => LoadRun(Ready(d), retries + 1, [])
    case AttemptFailed(e) =>
      if retries + 1 >= MaxRetries then LoadRun(LoadFailed(LoadFailedTag, e), retries + 1, [])
      else
        var rest := LoadFrom(attempt, retries + 1);
        LoadRun(rest.outcome, rest.attempts, [2000 * (retries + 1)] + rest.waits)
  }

  /** The waits 2000·n for n in 1..k. */
  function Backoff(k: nat): seq<nat> {
    if k == 0 then [] else Backoff(k - 1) + [2000 * k]
  }

  lemma {:induction false} LoadFromFacts(attempt: nat -> Attempt, retries: nat)
    requires retries < MaxRetries
    ensures var run := LoadFrom(attempt, retries);
      && retries < run.attempts <= MaxRetries
      && (run.outcome.Ready? ==>
            attempt(run.attempts - 1) == Loaded(run.outcome.detector) &&
            forall k :: retries <= k < run.attempts - 1 ==> attempt(k).AttemptFailed?)
      && (run.outcome.LoadFailed? ==>
            run.attempts == MaxRetries && run.outcome.tag == LoadFailedTag &&
            forall k :: retries <= k < MaxRetries ==> attempt(k).AttemptFailed?)
      && Backoff(retries) + run.waits == Backoff(run.attempts - 1)
    decreases MaxRetries - retries
  {
    match attempt(retries)
    case Loaded(d) =>
    case AttemptFailed(e) =>
      if retries + 1 < MaxRetries {
        LoadFromFacts(attempt, retries + 1);
        var rest := LoadFrom(attempt, retries + 1);
        assert Backoff(retries + 1) == Backoff(retries) + [2000 * (retries + 1)];
        assert Backoff(retries) + ([2000 * (retries + 1)] + rest.waits) == Backoff(retries + 1) + rest.waits;
      }
  }

  /** At most three attempts; the first success is returned; waits are
      2000, 4000 ms between attempts and none after the last failure, which
      raises MODEL_LOAD_FAILED. */
  lemma LoadContract(attempt: nat -> Attempt)
    ensures var run := LoadFrom(attempt, 0);
      && 1 <= run.attempts <= MaxRetries
      && run.waits == Backoff(run.attempts - 1)
      && (run.outcome.Ready? <==> exists k :: 0 <= k < MaxRetries && attempt(k).Loaded?)
      && (run.outcome.Ready? ==>
            attempt(run.attempts - 1) == Loaded(run.outcome.detector) &&
            forall k :: 0 <= k < run.attempts - 1 ==> attempt(k).AttemptFailed?)
      && (run.outcome.LoadFailed? ==> run.attempts == 3 && run.outcome.tag == LoadFailedTag)
  {
    LoadFromFacts(attempt, 0);
    var run := LoadFrom(attempt, 0);
    assert Backoff(0) + run.waits == run.waits;
    if run.outcome.Ready? {
      assert attempt(run.attempts - 1).Loaded?;
    }
  }

  /** The module-level `detector`, `isModelLoading` and `modelLoadPromise`
      of initializePoseDetection. The promise is stored once settled. */
  class PoseDetectorLoader {
    var detector: Option<DetectorHandle>
    var isModelLoading: bool
    var modelLoadPromise: Option<LoadOutcome>

    ghost predicate Valid()
      reads this
    {
      && (detector.Some? ==> modelLoadPromise == Some(Ready(detector.value)))
      && (modelLoadPromise.Some? ==> isModelLoading)
      && (modelLoadPromise.Some? && modelLoadPromise.value.Ready? ==> detector == Some(modelLoadPromise.value.detector))
    }

    constructor ()
      ensures Valid()
      ensures detector == None && !isModelLoading && modelLoadPromise == None
    {
      detector := None;
      isModelLoading := false;
      modelLoadPromise := None;
    }

    /** initializePoseDetection. An existing detector or an earlier settled
        load is returned without any attempt; otherwise the retry loop runs.
        `isModelLoading` is never reset, so a failed load stays failed. */
    method Initialize(attempt: nat -> Attempt) returns (outcome: LoadOutcome, attempts: nat, waits: seq<nat>)
      requires Valid()
      modifies this
      ensures Valid()
      ensures old(detector).Some? ==>
        outcome == Ready(old(detector).value) && attempts == 0 && waits == []
        && detector == old(detector) && modelLoadPromise == old(modelLoadPromise)
      ensures old(detector).None? && old(modelLoadPromise).Some? ==>
        outcome == old(modelLoadPromise).value && attempts == 0 && waits == []
        && detector == old(detector) && modelLoadPromise == old(modelLoadPromise)
      ensures old(detector).None? && old(modelLoadPromise).None? ==>
        var run := LoadFrom(attempt, 0);
        && outcome == run.outcome && attempts == run.attempts && waits == run.waits
        && isModelLoading && modelLoadPromise == Some(outcome)
        && detector == (if outcome.Ready? then Some(outcome.detector) else None)
    {
      if detector.Some? {
        return Ready(detector.value), 0, [];
      }
      if isModelLoading && modelLoadPromise.Some? {
        return modelLoadPromise.value, 0, [];
      }
      isModelLoading := true;
      var retries: nat := 0;
      var done := false;
      attempts, waits := 0, [];
      outcome := LoadFailed(LoadFailedTag, "");
      while !done
        invariant isModelLoading
        invariant retries < MaxRetries || done
        invariant detector.None? || done
        invariant !done ==> attempts == retries && waits == Backoff(retries)
        invariant !done ==> LoadFrom(attempt, 0) == (var rest := LoadFrom(attempt, retries);
                              LoadRun(rest.outcome, rest.attempts, Backoff(retries) + rest.waits))
        invariant done ==> LoadFrom(attempt, 0) == LoadRun(outcome, attempts, waits)
        invariant done ==> detector == (if outcome.Ready? then Some(outcome.detector) else None)
        decreases MaxRetries - retries, if done then 0 else 1
      {
        var r := attempt(retries);
        attempts := attempts + 1;
        if r.Loaded? {
          detector := Some(r.detector);
          outcome := Ready(r.detector);
          done := true;
        } else {
          retries := retries + 1;
          if retries >= MaxRetries {
            outcome := LoadFailed(LoadFailedTag, r.error);
            done := true;
          } else {
            waits := waits + [2000 * retries];
            assert LoadFrom(attempt, retries - 1).waits == [2000 * retries] + LoadFrom(attempt, retries).waits;
            assert Backoff(retries - 1) + ([2000 * retries] + LoadFrom(attempt, retries).waits)
                == Backoff(retries) + LoadFrom(attempt, retries).waits;
          }
        }
      }
      modelLoadPromise := Some(outcome);
    }
  }
}
