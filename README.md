# Pose assessment pipeline — a Dafny model

This project models the pose-assessment pipeline of the rehabilitation app and states what the pipeline promises as verified contracts. The pipeline has four parts:

1. **Keypoint validation.** The pose detector's output is validated and named. The app then turns these keypoints into a per-frame movement evaluation: deep squat, shoulder mobility, or generic confidence.
2. **Two tick-driven schedulers.** One is the inference loop of the pose-estimation hook. The other is the overlay renderer of the camera view. Each has adaptive intervals, an in-flight gate, a throttle and a last-good keypoint cache.
3. **Overlay selection.** These rules decide which bones and points get painted, and with what clamped coordinates, alpha, radius, colour band and label. The camera overlay and the skeleton visualiser each have their own rules.
4. **FMS assessment aggregation.** This covers canonical and extra metrics, score banding, composite and category scores, left/right asymmetry, recommendation lists and deduplicated exercise lists.

Around these sit smaller parts:
- the criteria-based scorer;
- the guarded joint-angle calculator;
- the assessment store and module registry;
- the upload accept-list validation;
- the example assessment generator and its score bar;
- the analysis history and file-size formatting;
- the module configuration lookups;
- the module-API registry.

The modules and the source files they model:

| Dafny module | file | models |
|---|---|---|
| `Wrappers`, `JsNumber`, `Strings`, `Keypoints` | — | Shared helpers: `Option`/`Result`; JavaScript numbers with NaN; `Math.round`/`toFixed` rounding; the string built-ins used (`split`, `trim`, `replace`, `startsWith`, `endsWith`, `toLowerCase`); the keypoint record and `find` by name. |
| `PoseDetection` | src/services/poseDetection.ts | The loader's memo and retry loop; keypoint conversion; the three-point angle; `evaluateMovement`. |
| `PoseEstimation` | src/hooks/usePoseEstimation.ts | The hook's state and refs as a class; model initialisation; the `processFrame` state machine; `hasKeypointsChanged`. |
| `CameraCapture` | src/CameraCapture.tsx | `drawKeypoints` (interval adaptation, clear/cache decision, bone and dot selection) and the `processVideoFrame` throttle. |
| `SkeletonVisualizer` | RehabHub/src/shared/components/SkeletonVisualizer.tsx | `drawSkeleton`'s selection and banding. |
| `AngleCalculator` | src/shared/components/AngleCalculator.tsx | `calculateAngle`. |
| `ScoringSystem` | src/shared/components/ScoringSystem.tsx | `calculateScore`. |
| `Assessment` | RehabHub/src/types/assessment.ts | The assessment record types; `LocalAssessmentStorage`; `AssessmentSystemRegistry`. |
| `FmsProcessor` | RehabHub/src/services/assessment/fmsProcessor.ts | The `FmsProcessor` class. |
| `FileUpload` | RehabHub/src/shared/components/FileUpload.tsx | `validateFile` and the component's handlers. |
| `ExampleAnalysis` | src/components/ExampleAnalysis.tsx | `generateExampleFmsAssessment` and the `ScoreBar` colour. |
| `VideoAnalysis` | src/VideoAnalysis.tsx | History saving, `formatFileSize` and the analyse/capture handlers. |
| `ModuleConfig` | src/moduleConfig.ts | The module list, lookups, filters and URLs. |
| `ModuleApi` | src/services/api.ts | The `moduleApis` registry. |

## How the model maps the source

- **Time, randomness, trigonometry and outside calls are parameters.**
  - `Date.now()` becomes `now`, and `new Date().toISOString()` becomes `isoTime`.
  - The mock keypoints and mock evaluations become arbitrary inputs.
  - `Math.sqrt` and `Math.acos` become uninterpreted functions.
  - The angle geometry of `evaluateMovement` becomes a `Geometry` parameter.
  - TensorFlow detector attempts become an attempt oracle `attempt: nat -> Attempt`.
  - The result of an extraction or of a network analysis becomes an input value.
- **Awaits split a method in two.** An asynchronous handler that awaits is modelled as two methods: `BeginFrame` runs before the await and `FinishFrame` after it. Other ticks may run between the two calls.
- **Refs and state become class fields.** React refs and state become fields of a class, and each handler becomes a method with a `modifies` clause. `localStorage` lists become a `seq` field.
- **JavaScript numbers.** Scores and coordinates are `real`. Where the model lets a NaN in, the value is a `Num` (`NaN | Fin(real)`), and every comparison with NaN is false, as in JavaScript. This covers the detector's raw output, the converter's result, knee angles, and the `maxValue` 0 divisions. The shared `Keypoint` record holds its score as `Option<real>`. So the NaN score that the converter lets through (see Findings) stops at the converter: the members that consume keypoints see the corrected converter's output.
- **JavaScript truthiness and objects.** `x || default` treats `undefined`, `0` and `""` as missing, and the model writes this out. A plain object looked up with a key such as `toString` finds an inherited member, and the model follows that too. `Strings.PrototypeNames` lists these names. They matter in four places:
  - `extractMetrics` skips such extra keys;
  - `checkAsymmetry` compares against a NaN;
  - `generateExampleFmsAssessment` fails on such movement types;
  - `getModuleApi` does not throw for such ids.
- **Where the specification and the code differ, the model follows the code.** Five cases:
  - The conversion keeps a keypoint whose score is NaN (see Findings).
  - The camera overlay draws every point whatever its score.
  - The alternate keypoint name drops only the first underscore.
  - The inference interval adapts on the `fps` value published at the previous update.
  - `handleCapture` analyses the file that was selected before the capture.

## Model

| member | source | states |
|---|---|---|
| Keypoints.FindFirst | src/services/poseDetection.ts:399-401 | The first keypoint with the name, or none iff no keypoint has it. |
| Keypoints.FindLast | src/CameraCapture.tsx:178 | The last keypoint with the name (what a Map built from the list keeps), or none iff no keypoint has it. |
| PoseDetection.KeypointName | src/services/poseDetection.ts:220-264 | An input index below 17 gets its COCO name; any other index gets `keypoint_<index>`. |
| PoseDetection.ConvertPoseToKeypoints | src/services/poseDetection.ts:203-276 | The loop's output is exactly `Converted(poses)`: the survivors of the first pose, in input order. |
| PoseDetection.SurvivorsFacts | src/services/poseDetection.ts:228-268 | The surviving indices are strictly increasing. An index survives iff its entry passes every check. |
| PoseDetection.ConvertedBounds | src/services/poseDetection.ts:229-260 | Every emitted keypoint has x and y in [0,1] and a score above 0.2, or else a NaN score. |
| PoseDetection.ConvertedIsIndexedSubsequence | src/services/poseDetection.ts:210-268 | The output is an order-preserving subsequence of `poses[0].keypoints`, no longer than it. Entry j is named by its input index. |
| PoseDetection.ConvertedIgnoresOtherPoses | src/services/poseDetection.ts:205-215 | Poses after the first are ignored. A missing or empty pose list, or a first pose without keypoints, gives []. |
| PoseDetection.NaNScoreSurvives | src/services/poseDetection.ts:243-260 | As written, a keypoint with a NaN score is emitted. |
| PoseDetection.ConvertPoseToKeypointsChecked | src/services/poseDetection.ts:243-260 | Corrected conversion: every keypoint has a defined score above 0.2 and coordinates in [0,1]. When no score is NaN it agrees with the as-written output entry by entry. |
| PoseDetection.DropNaNScores | src/services/poseDetection.ts:263-268 | Dropping NaN-scored entries leaves only valid keypoints, and drops nothing when no score is NaN. |
| PoseDetection.NaNScoreDroppedWhenChecked | src/services/poseDetection.ts:243-260 | The corrected conversion drops the NaN-scored keypoint. |
| PoseDetection.EvaluateMovement | src/services/poseDetection.ts:377-478 | Only the deep-squat rule reports angles, and those are the two knees. Its branches are stated by EvaluateTooFewKeypoints, EvaluateDetails, DeepSquatBands, ShoulderMobilityDispatch with ShoulderEvaluationScore, and OtherMovementScore. |
| PoseDetection.EvaluateTooFewKeypoints | src/services/poseDetection.ts:387-396 | With fewer than 10 keypoints the result is score 0.5, the default feedback, no angles and no details. |
| PoseDetection.EvaluateDetails | src/services/poseDetection.ts:469-471 | From 10 keypoints on, the details carry the input length and the mean confidence, and the score is at most 1. |
| PoseDetection.DeepSquatBands | src/services/poseDetection.ts:406-433 | Deep squat calculates both knee angles. A mean knee angle in [90,100] scores 0.9, otherwise one in [80,110] scores 0.7, otherwise 0.5 (NaN included). |
| PoseDetection.DeepSquatSamples | src/services/poseDetection.ts:421-432 | Sample knee angles land in each band, and a NaN angle falls to 0.5. |
| PoseDetection.ShoulderMobilityDispatch | src/services/poseDetection.ts:435-440 | With at least 10 keypoints, shoulder mobility is scored from the first left and right shoulder and wrist keypoints found. |
| PoseDetection.ShoulderEvaluationScore | src/services/poseDetection.ts:440-459 | With both shoulders and both wrists found, the score is min(1, mean raise / 200), so at most 1. Otherwise it stays 0.5 with the default feedback. No angles are reported. |
| PoseDetection.OtherMovementScore | src/services/poseDetection.ts:461-466 | Any other movement scores min(1, mean score), with a missing score counted as 0. |
| PoseDetection.LoadFromFacts | src/services/poseDetection.ts:35-93 | The remaining attempts stop at the first success or after the third failure (tag `MODEL_LOAD_FAILED`). The waits are 2000·n ms. |
| PoseDetection.LoadContract | src/services/poseDetection.ts:32-93 | 1 to 3 attempts are made. The load succeeds iff one of the first three attempts does, and it returns the first successful detector. A failure comes after exactly 3 attempts. |
| PoseDetection.PoseDetectorLoader.constructor | src/services/poseDetection.ts:14-16 | No detector, not loading, no pending load. |
| PoseDetection.PoseDetectorLoader.Initialize | src/services/poseDetection.ts:21-99 | An existing detector is returned at once. A pending load is shared, so a failure is sticky. Otherwise the retry run decides the outcome and the stored detector. |
| PoseEstimation.AdaptInterval | src/hooks/usePoseEstimation.ts:140-144 | The interval stays within [50,200]. It is unchanged for fps in [15,30], and otherwise moves by 10 toward the bound. |
| PoseEstimation.AdaptIntervalStaysOnGrid | src/hooks/usePoseEstimation.ts:67-144 | From 80 on the grid of 10 the interval stays on the grid. It changes by exactly ±10 when fps < 15 or > 30 and not already at a bound. |
| PoseEstimation.HasKeypointsChanged | src/hooks/usePoseEstimation.ts:239-257 | The scan returns exactly `KeypointsChanged`: the lengths differ, or some same-index name differs, or it moved by more than 0.02. |
| PoseEstimation.KeypointsChangedFacts | src/hooks/usePoseEstimation.ts:239-257 | The change test is false on identical lists and symmetric in its arguments. |
| PoseEstimation.ScoresAreIgnored | src/hooks/usePoseEstimation.ts:245-254 | Lists differing only in scores count as unchanged. |
| PoseEstimation.PoseEstimationHook.constructor | src/hooks/usePoseEstimation.ts:53-70 | The initial state: interval 80, model loading, nothing cached, no mock data. |
| PoseEstimation.PoseEstimationHook.InitializeModel | src/hooks/usePoseEstimation.ts:76-112 | Loading ends. Success marks the model initialised. An error records its message, and only `MODEL_LOAD_FAILED` switches to mock keypoints. |
| PoseEstimation.PoseEstimationHook.MockTimerTick | src/hooks/usePoseEstimation.ts:105-107 | In mock mode the timer publishes the mock keypoints. |
| PoseEstimation.PoseEstimationHook.CountFrame | src/hooks/usePoseEstimation.ts:130-145 | The counter always advances. Once 1000 ms have passed, fps is published, the counter resets and the interval adapts on the previous fps. |
| PoseEstimation.PoseEstimationHook.BeginFrame | src/hooks/usePoseEstimation.ts:128-184 | Mock mode returns before the gate. A frame is skipped while one is in flight or the model is not initialised. A throttled frame republishes a non-empty cache. A started frame sets the in-flight flag and the process time. |
| PoseEstimation.PoseEstimationHook.FinishFrame | src/hooks/usePoseEstimation.ts:186-235 | Only a non-empty result replaces the cache. Keypoints are published only on a change. Evaluation is scheduled iff there is a type, the result is non-empty and the counter is divisible by 3. An error falls back to mock data. The flag is always cleared. |
| PoseEstimation.PoseEstimationHook.RunIdleEvaluation | src/hooks/usePoseEstimation.ts:203-206 | The idle callback publishes `evaluateMovement` of the scheduled keypoints. |
| CameraCapture.Lookup | src/CameraCapture.tsx:178-222 | The map keeps the last keypoint of a name. The exact name is tried first, then the name without its first underscore. |
| CameraCapture.AltNameDropsFirstUnderscoreOnly | src/CameraCapture.tsx:221-222 | `replace('_','')` removes only the first underscore, so `left_shoulder` becomes `leftshoulder`. |
| CameraCapture.Scale | src/CameraCapture.tsx:231-234 | A coordinate is clamped to [0,1] before scaling, so it lands in [0, extent]. |
| CameraCapture.BoneFor | src/CameraCapture.tsx:219-245 | A bone is drawn iff both ends are found and both scores are at least 0.2 (undefined counts as 1). It lies on the canvas, and its alpha is the mean of the two scores. |
| CameraCapture.BonesAreSound | src/CameraCapture.tsx:219-246 | Every drawn bone comes from a connection whose bone qualifies. |
| CameraCapture.BonesAreComplete | src/CameraCapture.tsx:219-246 | Every qualifying connection's bone is drawn. |
| CameraCapture.BonesOnCanvas | src/CameraCapture.tsx:231-238 | Every drawn bone lies inside the canvas with alpha ≥ 0.2. |
| CameraCapture.DrawBones | src/CameraCapture.tsx:219-246 | The loop draws exactly `Bones`: the qualifying connections in order. |
| CameraCapture.DrawPoints | src/CameraCapture.tsx:256-289 | One dot per keypoint whatever its score, inside the canvas. The radius is 5 + 2.5·score and the alpha is the score. A label round(score·100) appears iff the score is defined and below 0.8. |
| CameraCapture.AdaptDrawInterval | src/CameraCapture.tsx:133-139 | The draw interval stays within [30,200], is unchanged for fps in [20,30], and otherwise moves by 5 toward the bound. |
| CameraCapture.AdaptDrawIntervalStaysOnGrid | src/CameraCapture.tsx:40-139 | From 100 on the grid of 5 the interval stays on the grid and changes by at most 5. |
| CameraCapture.PaintFacts | src/CameraCapture.tsx:160-176 | The canvas is cleared iff the keypoints are non-empty and differ from the cache, or the canvas has zero size. Nothing is drawn for an empty frame or a zero-size canvas. Everything drawn lies on the canvas. |
| CameraCapture.SkeletonOverlay.constructor | src/CameraCapture.tsx:40-45 | Draw interval 100, all counters and times 0, empty cache. |
| CameraCapture.SkeletonOverlay.CountDraw | src/CameraCapture.tsx:126-145 | The counter advances. After 1000 ms it resets and the interval adapts on the fresh count. The draw time is updated. |
| CameraCapture.SkeletonOverlay.DrawTick | src/CameraCapture.tsx:110-298 | With the skeleton hidden, or before the interval has elapsed, nothing changes. Otherwise the counters update. A missing canvas paints nothing, and a canvas is painted by `Paint`, replacing the cache only when it is cleared. |
| CameraCapture.Combined | src/CameraCapture.tsx:60-61 | External keypoints win when non-empty; otherwise the internal estimates are used. |
| CameraCapture.VideoFrameLoop.constructor | src/CameraCapture.tsx:38 | The last process time starts at 0. |
| CameraCapture.VideoFrameLoop.Tick | src/CameraCapture.tsx:301-330 | A tick acts only with an active camera and more than 100 ms since the last action. It then calls back, and it estimates internally only with no external keypoints and nothing in flight. |
| SkeletonVisualizer.LayoutOf | RehabHub/src/shared/components/SkeletonVisualizer.tsx:57-63 | The defaults are 400×300 and the 16 default connections; supplied props are used as given. |
| SkeletonVisualizer.Band | RehabHub/src/shared/components/SkeletonVisualizer.tsx:102-109 | Red iff below 0.5, orange iff in [0.5,0.7), blue iff at or above 0.7. |
| SkeletonVisualizer.StrokeFor | RehabHub/src/shared/components/SkeletonVisualizer.tsx:95-117 | A stroke is drawn iff both ends are found by first match with truthy scores above 0.3. It is scaled without clamping and coloured by the mean score. |
| SkeletonVisualizer.Radius | RehabHub/src/shared/components/SkeletonVisualizer.tsx:127-136 | The radius is 3, 3.5 or 4 by the same bands. |
| SkeletonVisualizer.StrokesAreTheQualifyingConnections | RehabHub/src/shared/components/SkeletonVisualizer.tsx:95-118 | The strokes are exactly the qualifying connections' strokes. |
| SkeletonVisualizer.MarksAreTheConfidentKeypoints | RehabHub/src/shared/components/SkeletonVisualizer.tsx:121-148 | A keypoint is marked iff its score is truthy and above 0.3. Each mark is captioned with its keypoint's name. |
| SkeletonVisualizer.DrawSkeleton | RehabHub/src/shared/components/SkeletonVisualizer.tsx:93-149 | The two loops produce exactly the qualifying strokes and marks. |
| AngleCalculator.ClampCosine | src/shared/components/AngleCalculator.tsx:75 | The cosine is clamped into [-1,1], and values already inside are kept. |
| AngleCalculator.CalculateAngle | src/shared/components/AngleCalculator.tsx:25-86 | The joint name is echoed (default ""). A zero coordinate or a zero-length vector gives angle 0 and invalid. Otherwise the result is valid with the rounded angle of the clamped cosine. |
| AngleCalculator.CoincidentPointsAreInvalid | src/shared/components/AngleCalculator.tsx:60-70 | Coincident points give a zero-length vector and an invalid result. |
| AngleCalculator.ValidAngleInRange | src/shared/components/AngleCalculator.tsx:73-85 | With acos mapping [-1,1] into [0,π], every angle lies in [0,180]. |
| ScoringSystem.FindMeasurement | src/shared/components/ScoringSystem.tsx:56 | The first measurement with the name, or none iff no measurement has it. |
| ScoringSystem.EvaluateBounds | src/shared/components/ScoringSystem.tsx:72-147 | For weight ≥ 0 and sane bounds a criterion scores in [0, weight]. A value in range, or meeting its one-sided bound, scores the full weight. |
| ScoringSystem.AngleDeductionIsLinear | src/shared/components/ScoringSystem.tsx:82-95 | Outside an angle range the score is weight·(1 − min(1, d/30)), and 0 from 30 degrees on. The feedback says low or high. |
| ScoringSystem.ValueDeductionUsesHalfRange | src/shared/components/ScoringSystem.tsx:131-138 | Outside a value range the full deduction is reached at half the range's width. |
| ScoringSystem.InvertedValueRangeOverscores | src/shared/components/ScoringSystem.tsx:126-138 | An inverted value range scores above the weight. |
| ScoringSystem.Percentage | src/shared/components/ScoringSystem.tsx:163 | 0 when maxScore is 0, and within [0,100] for a score within [0,maxScore]. |
| ScoringSystem.OverallBand | src/shared/components/ScoringSystem.tsx:166-174 | The bands at 90 / 75 / 60 percent, each as an iff. |
| ScoringSystem.CalculateScore | src/shared/components/ScoringSystem.tsx:41-180 | The loop's result is exactly `ResultOf(Accumulate(ms, cs))`. |
| ScoringSystem.AccumulateTotals | src/shared/components/ScoringSystem.tsx:55-160 | The totals sum the unrounded scores and the weights of exactly the criteria whose measurement was found. Every criterion's name has a detail. |
| ScoringSystem.LastCriterionDecidesDetail | src/shared/components/ScoringSystem.tsx:56-155 | A missing measurement records a zero detail with maxScore = weight. Otherwise the score is rounded to 2 decimals, and a later criterion of the same name overwrites the detail. |
| ScoringSystem.TotalWithinMax | src/shared/components/ScoringSystem.tsx:157-163 | With non-negative weights and sane bounds the total lies in [0,maxScore] and the percentage in [0,100]. |
| Assessment.IndexOfId | RehabHub/src/types/assessment.ts:97 | The first index with the id, or none iff no entry has it. |
| Assessment.FindById | RehabHub/src/types/assessment.ts:112 | The entry at the first index with the id. |
| Assessment.SavedIsCapped | RehabHub/src/types/assessment.ts:106 | After a save at most 100 entries remain. The exact length depends on whether the id was present. |
| Assessment.SaveReplacesInPlace | RehabHub/src/types/assessment.ts:99-100 | A known id is replaced at its index, and every other kept entry is unchanged. |
| Assessment.SavePrependsNew | RehabHub/src/types/assessment.ts:101-103 | A new id goes to index 0, followed by the previous entries in order. |
| Assessment.SaveThenFind | RehabHub/src/types/assessment.ts:95-113 | After saving into a store of at most 100 entries, `getById(a.id)` returns `a`. |
| Assessment.IndexOfIdUnique | RehabHub/src/types/assessment.ts:97 | The first index with the id is the one `findIndex` reports. |
| Assessment.WithMovementTypeIsExact | RehabHub/src/types/assessment.ts:115-118 | Exactly the entries of the type, in stored order. |
| Assessment.WithoutIdIsExact | RehabHub/src/types/assessment.ts:130-134 | Every entry with the id is removed, and the rest keep their order. |
| Assessment.LocalAssessmentStorage.constructor | RehabHub/src/types/assessment.ts:92-93 | The store starts empty. |
| Assessment.LocalAssessmentStorage.Save | RehabHub/src/types/assessment.ts:95-108 | The new list is the upsert, capped at 100. |
| Assessment.LocalAssessmentStorage.GetById | RehabHub/src/types/assessment.ts:110-113 | The first stored entry with the id, as `find` returns it: no earlier entry has the id. None iff no stored entry has it. |
| Assessment.LocalAssessmentStorage.GetAll | RehabHub/src/types/assessment.ts:120-128 | The stored list as it is, with an absent key read as the empty list the constructor starts from. |
| Assessment.LocalAssessmentStorage.GetByMovementType | RehabHub/src/types/assessment.ts:115-118 | Exactly the stored entries of the type, in stored order: the result is the order-keeping filter `WithMovementType`, which distributes over concatenation. |
| Assessment.LocalAssessmentStorage.Delete | RehabHub/src/types/assessment.ts:130-134 | The new list is the old one without the id. |
| Assessment.ValuesInOrder | RehabHub/src/types/assessment.ts:77-79 | One module per registered id, in registration order. |
| Assessment.ModulesForIsExact | RehabHub/src/types/assessment.ts:71-75 | Exactly the registered modules whose supported types include the movement. |
| Assessment.AssessmentSystemRegistry.constructor | RehabHub/src/types/assessment.ts:61 | The registry starts empty. |
| Assessment.AssessmentSystemRegistry.RegisterModule | RehabHub/src/types/assessment.ts:63-65 | The id maps to the module. A new id goes last; an existing one is overwritten in place. |
| Assessment.AssessmentSystemRegistry.GetModule | RehabHub/src/types/assessment.ts:67-69 | The module registered under the id, or none iff there is none. |
| Assessment.AssessmentSystemRegistry.GetModulesForMovement | RehabHub/src/types/assessment.ts:71-75 | Exactly the registered modules listing the movement type. The result is the type filter of the values in registration order, one per id. |
| Assessment.SupportingTypeKeepsOrder | RehabHub/src/types/assessment.ts:71-75 | The type filter distributes over concatenation, so it keeps the order of the list it filters. |
| Assessment.ModulesForFiltersValues | RehabHub/src/types/assessment.ts:71-75 | Walking the registered ids in order and keeping the matches equals `Array.from(values()).filter(...)` over the values in registration order. |
| Assessment.AssessmentSystemRegistry.GetAllModules | RehabHub/src/types/assessment.ts:77-79 | Every registered module, one per id, in registration order. |
| FmsProcessor.NumberOr | RehabHub/src/services/assessment/fmsProcessor.ts:103 | `x \|\| d` on numbers: the value unless missing or 0. |
| FmsProcessor.TextOr | RehabHub/src/services/assessment/fmsProcessor.ts:16-17 | `s \|\| d` on strings: the text unless missing or empty. |
| FmsProcessor.CreateScore | RehabHub/src/services/assessment/fmsProcessor.ts:151-178 | The value and maxValue are kept. For a positive maxValue the description bands are value ≥ 0.8·max / ≥ 0.6· / ≥ 0.4· / below, each as an iff, and the feedback matches the description. For maxValue 0, a positive value is 优秀 and any other value is 需改进. |
| FmsProcessor.PercentageBands | RehabHub/src/services/assessment/fmsProcessor.ts:156-164 | The percentage thresholds 80/60/40 are the same as comparing the value with 0.8/0.6/0.4 of the maximum. |
| FmsProcessor.Canonical | RehabHub/src/services/assessment/fmsProcessor.ts:99-130 | Five canonical metrics in fixed order, each with maxValue 3 and a missing input counted as 0. |
| FmsProcessor.ExtraMetric | RehabHub/src/services/assessment/fmsProcessor.ts:136-143 | An extra metric keeps its key as id. The name defaults to the key with every `_` made a space, the maximum to 3 and the category to `general`. |
| FmsProcessor.ExtractMetrics | RehabHub/src/services/assessment/fmsProcessor.ts:97-149 | The loop's output is exactly `Extracted(data)`. |
| FmsProcessor.WithExtrasKeepsBase | RehabHub/src/services/assessment/fmsProcessor.ts:133-146 | Extra entries never change or remove the canonical metrics. |
| FmsProcessor.WithExtrasFreshKeys | RehabHub/src/services/assessment/fmsProcessor.ts:135 | Ids stay unique. An extra never takes a canonical id or an inherited object member's name. |
| FmsProcessor.WithExtrasFromEntries | RehabHub/src/services/assessment/fmsProcessor.ts:134-144 | Every added metric comes from an object-valued entry. |
| FmsProcessor.ExtractedFacts | RehabHub/src/services/assessment/fmsProcessor.ts:97-149 | The five canonical metrics come first with maxValue 3. Ids are unique. Every later metric is an extra with a fresh key. |
| FmsProcessor.SumOfAppend | RehabHub/src/services/assessment/fmsProcessor.ts:182-183 | The reduce-sum of a concatenation is the sum of the sums. |
| FmsProcessor.SumOfPermutation | RehabHub/src/services/assessment/fmsProcessor.ts:182-183 | The reduce-sum does not depend on order. |
| FmsProcessor.InCategory | RehabHub/src/services/assessment/fmsProcessor.ts:187-201 | Exactly the metrics of the category. |
| FmsProcessor.OverallScore | RehabHub/src/services/assessment/fmsProcessor.ts:180-185 | The overall value and maximum are the reduce-sums of every metric's value and maximum. Their order-freedom is stated by OverallScoreIsOrderFree. |
| FmsProcessor.OverallScoreIsOrderFree | RehabHub/src/services/assessment/fmsProcessor.ts:180-185 | The overall score does not change under any permutation of the metrics. |
| FmsProcessor.CategoryScore | RehabHub/src/services/assessment/fmsProcessor.ts:187-201 | A mobility or stability score counts only metrics of its own category: value and maximum equal the all-metrics sums with every other metric counted as 0. |
| FmsProcessor.CategorySums | RehabHub/src/services/assessment/fmsProcessor.ts:189-191 | Summing the filtered list equals summing all metrics with other categories counted as 0. |
| FmsProcessor.OtherCategoriesDoNotMatter | RehabHub/src/services/assessment/fmsProcessor.ts:187-201 | Replacing a metric of another category does not change a category score. |
| FmsProcessor.InCategoryUpdate | RehabHub/src/services/assessment/fmsProcessor.ts:189 | The category filter ignores an update outside the category. |
| FmsProcessor.FirstDiffering | RehabHub/src/services/assessment/fmsProcessor.ts:207-211 | The early-return loop finds a difference iff some left entry differs from its right value (or 0) by at least 1. |
| FmsProcessor.CheckAsymmetry | RehabHub/src/services/assessment/fmsProcessor.ts:203-214 | True iff both side maps exist and some left key differs by ≥ 1 from its right value, a missing right value counting as 0. |
| FmsProcessor.RightOnlyKeysIgnored | RehabHub/src/services/assessment/fmsProcessor.ts:207-208 | Keys present only on the right never change the answer. |
| FmsProcessor.AsymmetrySamples | RehabHub/src/services/assessment/fmsProcessor.ts:205-213 | A left 3 against a missing right is asymmetric, while a 0.5 difference is not. Without left scores the answer is false. |
| FmsProcessor.LowScoring | RehabHub/src/services/assessment/fmsProcessor.ts:220 | Exactly the metrics with value below 2. |
| FmsProcessor.Take | RehabHub/src/services/assessment/fmsProcessor.ts:248 | `slice(0, n)`: a prefix of length min(len, n). |
| FmsProcessor.GenerateRecommendations | RehabHub/src/services/assessment/fmsProcessor.ts:216-249 | At most 5 entries, forming a prefix of the ordered full list. |
| FmsProcessor.RecommendationOrder | RehabHub/src/services/assessment/fmsProcessor.ts:220-248 | The weak-metric line leads iff some metric is below 2. The balance line appears iff asymmetry is detected. The two maintenance lines appear iff every metric is ≥ 2, and then they are the last two. |
| FmsProcessor.ExercisesFor | RehabHub/src/services/assessment/fmsProcessor.ts:40-55 | Each low metric contributes at least one exercise. |
| FmsProcessor.Dedup | RehabHub/src/services/assessment/fmsProcessor.ts:59 | `[...new Set(xs)]`: no duplicates, the same elements, no longer. |
| FmsProcessor.DedupKeepsFirstOccurrenceOrder | RehabHub/src/services/assessment/fmsProcessor.ts:59 | Deduplicating a prefix gives a prefix of the deduplicated list, so first-occurrence order is kept. |
| FmsProcessor.RecommendationsFit | RehabHub/src/services/assessment/fmsProcessor.ts:216-248 | At most five lines are ever pushed, so the cut to five recommendations drops nothing. |
| FmsProcessor.PushExercises | RehabHub/src/services/assessment/fmsProcessor.ts:40-55 | One metric's pushes append exactly that metric's exercises to the list. |
| FmsProcessor.GetRecommendedExercises | RehabHub/src/services/assessment/fmsProcessor.ts:32-60 | The loop's result is the first 5 of the deduplicated pushes for the low metrics. |
| FmsProcessor.PushedFrom | RehabHub/src/services/assessment/fmsProcessor.ts:39-56 | Every pushed exercise comes from some low metric. |
| FmsProcessor.ExercisesFacts | RehabHub/src/services/assessment/fmsProcessor.ts:37-59 | At most 5 exercises, no duplicates, each drawn from a metric below 2. |
| FmsProcessor.NoExercisesWhenAllAtLeast2 | RehabHub/src/services/assessment/fmsProcessor.ts:37-59 | With every metric ≥ 2 no exercise is recommended. |
| FmsProcessor.Process | RehabHub/src/services/assessment/fmsProcessor.ts:5-30 | The assessment's id is `fms_<now>`, with the `unknown` / `Unknown Movement` / `[]` / `''` defaults. Its metrics are extracted, its scores composed, and the computed asymmetry flag is passed to the recommendations. |
| FileUpload.AcceptedTypes | RehabHub/src/shared/components/FileUpload.tsx:26 | The accept string split on ',' and trimmed; there is always at least one entry. |
| FileUpload.EntryMatches | RehabHub/src/shared/components/FileUpload.tsx:27-44 | A `/*` entry matches by MIME prefix, another entry with '/' by exact MIME, and a dot entry by the lower-cased name's ending. |
| FileUpload.SomeEntryMatches | RehabHub/src/shared/components/FileUpload.tsx:27 | True iff some entry matches. |
| FileUpload.Validate | RehabHub/src/shared/components/FileUpload.tsx:17-55 | A size above `maxSize` is rejected before any type check, and a size equal to it passes. Otherwise the file is rejected iff no entry matches and accept is not `*`. The valid case is given as an iff. |
| FileUpload.AcceptListSplitsAtComma | RehabHub/src/shared/components/FileUpload.tsx:26 | The first comma separates the first trimmed entry from the rest. |
| FileUpload.SingleEntryAccept | RehabHub/src/shared/components/FileUpload.tsx:25-44 | A single-entry accept list behaves as its trimmed entry. |
| FileUpload.UpperCaseExtensionNeverMatches | RehabHub/src/shared/components/FileUpload.tsx:28-43 | The entry itself is not lower-cased, so an extension entry with an upper-case letter never matches. |
| FileUpload.WildcardPrefix | RehabHub/src/shared/components/FileUpload.tsx:11-34 | The default `video/*` accepts exactly the MIME types starting with `video/`. |
| FileUpload.FileUploadState.constructor | RehabHub/src/shared/components/FileUpload.tsx:9-15 | The props default to `video/*` and 100 MiB; there is no error and no drag. |
| FileUpload.FileUploadState.ValidateFile | RehabHub/src/shared/components/FileUpload.tsx:17-55 | The recorded error is `Validate`'s, and the result is true iff there is none. |
| FileUpload.FileUploadState.HandleFile | RehabHub/src/shared/components/FileUpload.tsx:57-61 | A file is selected iff it is valid. |
| FileUpload.FileUploadState.Drop | RehabHub/src/shared/components/FileUpload.tsx:63-72 | Dragging ends. Only the first dropped file is validated and possibly selected; an empty drop changes nothing else. |
| FileUpload.FileUploadState.InputChange | RehabHub/src/shared/components/FileUpload.tsx:88-93 | The first chosen file is validated and possibly selected. |
| FileUpload.FileUploadState.DragEnter | RehabHub/src/shared/components/FileUpload.tsx:74-77 | Dragging becomes active. |
| FileUpload.FileUploadState.DragLeave | RehabHub/src/shared/components/FileUpload.tsx:79-82 | Dragging ends. |
| FileUpload.FileUploadState.ClickUpload | RehabHub/src/shared/components/FileUpload.tsx:95-98 | The error is cleared. |
| ExampleAnalysis.MetricsFor | src/components/ExampleAnalysis.tsx:32-55 | The fixed metric list of a known type, or the single `general_score` metric. Inherited object member names give no list (the source's TypeError). |
| ExampleAnalysis.Band | src/components/ExampleAnalysis.tsx:61-68 | 优秀 iff the mean is ≥ 2.5, 良好 iff in [1.5,2.5), 需改进 iff below 1.5. |
| ExampleAnalysis.GenerateExample | src/components/ExampleAnalysis.tsx:30-88 | The id is `example_<type>_<now>`. The overall value is the mean rounded to one decimal, out of 3, and its description follows the mean's band. The three recommendations are fixed. |
| ExampleAnalysis.DeepSquatExample | src/components/ExampleAnalysis.tsx:33-80 | The deep-squat example's overall score is 2.3 of 3, 良好. |
| ExampleAnalysis.ExcellentExamples | src/components/ExampleAnalysis.tsx:39-80 | The hurdle-step and shoulder-mobility examples score 2.5 of 3, 优秀. |
| ExampleAnalysis.UnknownMovementExample | src/components/ExampleAnalysis.tsx:53-55 | An unknown type yields the single `general_score` metric and 2.5 of 3, 优秀. |
| ExampleAnalysis.ScoreBarColour | src/components/ExampleAnalysis.tsx:91-100 | Danger iff below 50%, warning iff in [50%,80%), primary otherwise. A maximum of 0 gives danger only for a negative score. |
| ExampleAnalysis.BarBands | src/components/ExampleAnalysis.tsx:92-99 | The percentage thresholds are the same as comparing the score with 0.5 and 0.8 of the maximum. |
| VideoAnalysis.Saved | src/VideoAnalysis.tsx:80-93 | The new entry comes first, followed by the previous history in order; at most 10 are kept. |
| VideoAnalysis.SavedTwice | src/VideoAnalysis.tsx:90-93 | Two saves leave the later result first and the earlier second. |
| VideoAnalysis.FormatFileSize | src/VideoAnalysis.tsx:140-144 | B iff below 1024, KB iff below 1048576, MB otherwise. The amount is the size in that unit, to one decimal. |
| VideoAnalysis.FileSizeUnitsMeet | src/VideoAnalysis.tsx:141-143 | A KB amount lies in [1,1024]; an MB amount is at least 1. |
| VideoAnalysis.VideoAnalysisPage.constructor | src/VideoAnalysis.tsx:15-31 | Nothing selected, not analysing, no result, no error; the stored history. |
| VideoAnalysis.VideoAnalysisPage.HandleFileSelect | src/VideoAnalysis.tsx:40-44 | The file is selected; the error and result are cleared. |
| VideoAnalysis.VideoAnalysisPage.SaveResultToLocal | src/VideoAnalysis.tsx:75-100 | The history gains `analysis_<now>` with its timestamp at the front, capped at 10. |
| VideoAnalysis.VideoAnalysisPage.Analyze | src/VideoAnalysis.tsx:103-137 | Nothing happens without a file. Success stores and saves the result; failure records its message or the default text. Analysis ends in both cases. |
| VideoAnalysis.VideoAnalysisPage.HandleAnalyze | src/VideoAnalysis.tsx:103-128 | Analysis starts iff a file is selected. Without one nothing changes. Once started, analysing ends when the request settles. A success clears the error, stores the result and saves it first in the 10-entry history. A failure records its message or the default text and leaves the result and history as they were. |
| VideoAnalysis.VideoAnalysisPage.HandleCapture | src/VideoAnalysis.tsx:46-72 | The capture becomes the selected `capture_<now>.jpg`, and the error and result are cleared. The analysis runs on the file selected before, and starts iff there was one. A started success stores and saves the result. A started failure records the message or the default text, with no result and an unchanged history. |
| ModuleConfig.FindFirst | src/moduleConfig.ts:53-60 | The first module with the key, or none iff none has it. |
| ModuleConfig.GetModuleById | src/moduleConfig.ts:53-55 | A configured module with the id, or none iff no module has it. |
| ModuleConfig.GetModuleByPath | src/moduleConfig.ts:58-60 | A configured module with the path, or none iff no module has it. |
| ModuleConfig.Filter | src/moduleConfig.ts:63-80 | Exactly the modules that pass the test. |
| ModuleConfig.GetStandaloneModules | src/moduleConfig.ts:63-65 | Exactly the standalone modules. |
| ModuleConfig.GetActiveModules | src/moduleConfig.ts:68-70 | Exactly the active modules. |
| ModuleConfig.GetInternalModules | src/moduleConfig.ts:73-75 | Exactly the modules without a truthy external URL. |
| ModuleConfig.GetExternalModules | src/moduleConfig.ts:78-80 | Exactly the modules with a truthy external URL. |
| ModuleConfig.FilterKeepsOrder | src/moduleConfig.ts:63-80 | Filtering distributes over concatenation and so keeps order. |
| ModuleConfig.InternalExternalPartition | src/moduleConfig.ts:73-80 | The internal and external lists partition the modules. |
| ModuleConfig.ConfiguredModules | src/moduleConfig.ts:16-47 | All three configured modules are standalone, active and internal. |
| ModuleConfig.LookupById | src/moduleConfig.ts:16-60 | Sample id and path lookups, including an unknown id. |
| ModuleConfig.GetModuleUrl | src/moduleConfig.ts:83-85 | `"#/"` followed by the path. |
| ModuleConfig.GetModuleAccessUrl | src/moduleConfig.ts:88-93 | A truthy external URL, otherwise the module's hash URL. |
| ModuleApi.GlobalBaseUrl | src/services/api.ts:25-27 | The configured URL if non-empty, otherwise `http://localhost:8000`. |
| ModuleApi.ClientFor | src/services/api.ts:137-148 | An unregistered id fails with `未找到模块API配置: <id>`. A registered one uses its truthy `baseUrl`, else the global one, with the default headers. |
| ModuleApi.RegisterThenGet | src/services/api.ts:137-153 | After registering, the id's client uses the new config, and every other id's client is unchanged. |
| ModuleApi.InitialClients | src/services/api.ts:48-148 | A pre-registered module gets the global URL; an unregistered one fails. |
| ModuleApi.ModuleApiRegistry.constructor | src/services/api.ts:25-72 | The three pre-registered modules and the global base URL. |
| ModuleApi.ModuleApiRegistry.GetModuleApi | src/services/api.ts:137-148 | The lookup as `ClientFor` of the current registry. |
| ModuleApi.ModuleApiRegistry.RegisterModuleApi | src/services/api.ts:151-153 | Inserts or overwrites by `moduleId`; the other entries are unchanged. |
| ModuleApi.ModuleApiRegistry.GetAllModuleApis | src/services/api.ts:156-158 | The registry as a value, so later changes to the result cannot reach it. |

## Left out

- TensorFlow.js and MoveNet: `tf.ready`, `setBackend`, `createDetector`, `estimatePoses`, the `detectPose` timeout race and the video readiness checks of `extractKeypointsFromFrame`. These are foreign library calls and I/O. An attempt oracle stands in for the detector factory, and an `Extraction` value stands in for a frame's result.
- The numeric values of `Math.sqrt` and `Math.acos`. They are uninterpreted parameters. `PoseDetection.CalculateAngle` returns a `Geometry` result: its source has no clamp or zero-length guard, so no range is claimed for it.
- Floating point is modelled as exact rationals. Infinities are modelled only where a division by zero matters (`CreateScore` with maxValue 0, `ScoreBarColour`). `toFixed` is modelled as round-half-up to the digits, and `parseFloat`/`Number` as the identity on the result. The formatted strings themselves are not built. `toFixed` rounds the magnitude, so a negative tie goes away from zero: (-0.125).toFixed(2) is -0.13, where the model gives -0.12. Only a negative score in a scoring detail (a negative weight or deviation) can reach such a tie; every other rounded value is non-negative.
- Both the random mock keypoints and the mock evaluations are arbitrary inputs.
- React state batching and effect scheduling, `requestAnimationFrame`, `requestIdleCallback`, `setInterval` and `setTimeout`. Each tick or callback is a method call with `now` passed in. The model assumes that a `setState` inside a handler is visible to the next handler call.
- Concurrency between overlapping frames is not modelled beyond the split into `BeginFrame` and `FinishFrame`. Inside the loader, the `await` of concurrent callers is not modelled; they simply share the stored outcome.
- Canvas and SVG painting, JSX, `globalAlpha`, fonts and colours of the camera overlay, the radar chart, resize handlers, and the base64-to-file conversion of a capture. The colour strings of the skeleton visualiser are kept as constants.
- `generateReport` text of the FMS processor (date and number formatting).
- `localStorage` and JSON: each stored list is a field, and `JSON.stringify` equality of keypoint lists is modelled as value equality. A failing `JSON.parse` (its catch returning []) is not modelled.
- The `fetch`-based API clients and `analyzeVideo`: network I/O. An analysis is reduced to its outcome value.
- The `details` object that `extractMetrics` copies onto extra metrics, and the metric `details` record in general.
- `Object.entries` places integer-like keys first in ascending numeric order. The model keeps the given entry order.
- `FmsProcessor.ExtractMetrics`, `FmsProcessor.Extracted`, `FmsProcessor.ExtractedFacts`: `Object.values(metricsMap)` also lists integer-like keys (such as `"7"`) first, ahead of the five canonical metrics. The model appends every extra metric after the canonical five, so for such keys the order of the metrics differs from the source's. That order is also the order of the names in the weak-metric recommendation. Membership and the values of the metrics are unaffected.
- `FileUpload.Validate`: the lower-casing behind `toLowerCase` maps only the ASCII letters A–Z. Other letters, such as `Ü`, are kept as they are, so a non-ASCII extension entry can be rejected where the source accepts it.
- `PoseDetection.EvaluateMovement`, `PoseEstimation.PoseEstimationHook.FinishFrame`, `CameraCapture.DrawPoints`: these take `Keypoint` values, whose score is a real number or absent, never NaN. A NaN score that the converter lets through is therefore not followed into the mean confidence of the evaluation, the hook's cache, or the `score >= 0.2` and `score < 0.8` tests of the camera overlay (where the source gets a NaN radius and no label).
- `FmsProcessor.Process`: a `null` or non-object `data` is not modelled. Every field arrives as an `Option`.
- `ModuleApi.ModuleApiRegistry.RegisterModuleApi`: registering under an inherited member name such as `__proto__` would change the object's prototype rather than add an entry. The model treats it as an ordinary key.
- `ScoringSystem.CalculateScore`: the summary `feedback` string of the result is not built. Each detail's feedback is a datatype whose deviations are kept unrounded, not their Chinese text. The percentage is returned as a field instead.
- `FmsProcessor.ExercisesFor`: the contract states only that each low metric contributes an exercise; the exact strings are constants in its body.
- `CameraCapture.VideoFrameLoop.Tick`: `isProcessing` is passed in; the hook's value is the constant `false`.

## Findings

| source | as written | input that shows it | evidently intended | confidence | as-written member | corrected member |
|---|---|---|---|---|---|---|
| src/services/poseDetection.ts:243-260 | The score check is `keypoint.score <= minPoseScore`, which is false for NaN, so a NaN score passes the filter and is emitted, though every other NaN field is rejected. | One pose with keypoint `{x: 0.5, y: 0.5, score: NaN}`: the output is `[{name: "nose", x: 0.5, y: 0.5, score: NaN}]`. | Only keypoints with a real score above 0.2 are emitted. | not executed | PoseDetection.NaNScoreSurvives | PoseDetection.ConvertPoseToKeypointsChecked |
