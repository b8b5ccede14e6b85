/** The inference scheduler of the pose-estimation hook
    (src/hooks/usePoseEstimation.ts): model start-up, per-frame gating,
    throttling, the keypoint cache and the every-third-frame evaluation. */
module PoseEstimation {
  import opened Wrappers
  import opened JsNumber
  import opened Keypoints
  import opened PoseDetection

  const InitialUpdateInterval: int := 80
  const MinUpdateInterval: int := 50
  const MaxUpdateInterval: int := 200
  const FpsWindow: int := 1000
  /** How far a coordinate must move before a new frame is published. */
  const MoveThreshold: real := 0.02

  /** The interval adjustment made once per FPS window from the frame rate. */
  function AdaptInterval(interval: int, fps: nat): (r: int)
    ensures MinUpdateInterval <= interval <= MaxUpdateInterval ==> MinUpdateInterval <= r <= MaxUpdateInterval
    ensures 15 <= fps <= 30 ==> r == interval
    ensures fps < 15 && interval <= MaxUpdateInterval ==> interval <= r <= interval + 10 && (r == interval + 10 || r == MaxUpdateInterval)
    ensures fps > 30 && interval >= MinUpdateInterval ==> interval - 10 <= r <= interval && (r == interval - 10 || r == MinUpdateInterval)
  {
    if fps < 15 then (if interval + 10 > MaxUpdateInterval then MaxUpdateInterval else interval + 10)
    else if fps > 30 then (if interval - 10 < MinUpdateInterval then MinUpdateInterval else interval - 10)
    else interval
  }

  /** The interval stays on the grid 50, 60, ..., 200 that 80 starts on, so
      every change is exactly 10. */
  lemma AdaptIntervalStaysOnGrid(interval: int, fps: nat)
    requires MinUpdateInterval <= interval <= MaxUpdateInterval && (interval - MinUpdateInterval) % 10 == 0
    ensures var r := AdaptInterval(interval, fps);
      && MinUpdateInterval <= r <= MaxUpdateInterval && (r - MinUpdateInterval) % 10 == 0
      && (r == interval || r == interval + 10 || r == interval - 10)
      && (fps < 15 && interval < MaxUpdateInterval ==> r == interval + 10)
      && (fps > 30 && interval > MinUpdateInterval ==> r == interval - 10)
  {
  }

  /** One keypoint moved visibly: another name, or a coordinate shift above 0.02. */
  predicate Moved(a: Keypoint, b: Keypoint) {
    a.name != b.name || Abs(a.x - b.x) > MoveThreshold || Abs(a.y - b.y) > MoveThreshold
  }

  /** The change test: lengths differ or some same-index pair moved. */
  predicate KeypointsChanged(prev: seq<Keypoint>, next: seq<Keypoint>) {
    |prev| != |next| || exists i :: 0 <= i < |prev| && Moved(prev[i], next[i])
  }

  /** hasKeypointsChanged: scans same-index pairs and stops at the first move. */
  method HasKeypointsChanged(prev: seq<Keypoint>, next: seq<Keypoint>) returns (changed: bool)
    ensures changed == KeypointsChanged(prev, next)
  {
    if |prev| != |next| {
      return true;
    }
    var i := 0;
    while i < |prev|
      invariant 0 <= i <= |prev|
      invariant forall j :: 0 <= j < i ==> !Moved(prev[j], next[j])
    {
      var p, n := prev[i], next[i];
      if p.name != n.name {
        return true;
      }
      var dx, dy := Abs(p.x - n.x), Abs(p.y - n.y);
      if dx > MoveThreshold || dy > MoveThreshold {
        return true;
      }
      i := i + 1;
    }
    return false;
  }

  /** Identical frames never count as changed, and the test is symmetric. */
  lemma KeypointsChangedFacts(a: seq<Keypoint>, b: seq<Keypoint>)
    ensures !KeypointsChanged(a, a)
    ensures KeypointsChanged(a, b) == KeypointsChanged(b, a)
  {
    if |a| == |b| && KeypointsChanged(a, b) {
      var i :| 0 <= i < |a| && Moved(a[i], b[i]);
      assert Moved(b[i], a[i]);
    }
    if |a| == |b| && KeypointsChanged(b, a) {
      var i :| 0 <= i < |b| && Moved(b[i], a[i]);
      assert Moved(a[i], b[i]);
    }
  }

  /** Scores are not compared: a frame that differs only in scores is unchanged. */
  lemma ScoresAreIgnored(a: seq<Keypoint>, b: seq<Keypoint>)
    requires |a| == |b|
    requires forall i :: 0 <= i < |a| ==> a[i].name == b[i].name && a[i].x == b[i].x && a[i].y == b[i].y
    ensures !KeypointsChanged(a, b)
  {
  }

  /** How start-up ended: initializePoseDetection resolved, or threw with a message. */
  datatype InitResult = InitOk | InitError(message: string)

  /** What extractKeypointsFromFrame delivered after the await. */
  datatype Extraction = Extracted(keypoints: seq<Keypoint>) | Threw(message: string)

  /** What the synchronous part of processFrame did. */
  datatype FrameStart = MockFrame | Skipped | Throttled | Started

  /** The extraction in flight: the movement type of the call and the
      published keypoints its closure compares against. */
  datatype Pending = Pending(movementType: string, publishedAtStart: seq<Keypoint>)

  /** An evaluation queued with requestIdleCallback. */
  datatype IdleEvaluation = IdleEvaluation(keypoints: seq<Keypoint>, movementType: string)

  const LoadFailedMessage: string := "MODEL_LOAD_FAILED"

  /** The hook's state and refs. `isProcessing` is a state that is never set. */
  class PoseEstimationHook {
    var keypoints: seq<Keypoint>
    const isProcessing: bool := false
    var error: Option<string>
    var isModelLoading: bool
    var movementEvaluation: Option<Evaluation>
    var usingMockData: bool
    var fps: nat
    var modelInitialized: bool
    var processing: bool
    var lastProcessTime: int
    var updateInterval: int
    var fpsCount: nat
    var lastFpsUpdate: int
    var keypointsCache: seq<Keypoint>
    var pending: Option<Pending>
    var idle: Option<IdleEvaluation>

    ghost predicate Valid()
      reads this
    {
      && MinUpdateInterval <= updateInterval <= MaxUpdateInterval
      && (updateInterval - MinUpdateInterval) % 10 == 0
      && (processing <==> pending.Some?)
      && !isProcessing
    }

    constructor ()
      ensures Valid()
      ensures keypoints == [] && error == None && isModelLoading && movementEvaluation == None
      ensures !usingMockData && fps == 0 && !modelInitialized && !processing
      ensures lastProcessTime == 0 && updateInterval == InitialUpdateInterval
      ensures fpsCount == 0 && lastFpsUpdate == 0 && keypointsCache == []
      ensures pending == None && idle == None
    {
      keypoints := [];
      error := None;
      isModelLoading := true;
      movementEvaluation := None;
      usingMockData := false;
      fps := 0;
      modelInitialized := false;
      processing := false;
      lastProcessTime := 0;
      updateInterval := InitialUpdateInterval;
      fpsCount := 0;
      lastFpsUpdate := 0;
      keypointsCache := [];
      pending := None;
      idle := None;
    }

    /** The start-up effect once initialisation settled. Only the
        MODEL_LOAD_FAILED error switches to mock data. */
    method InitializeModel(result: InitResult, mockKeypoints: seq<Keypoint>)
      requires Valid()
      modifies this
      ensures Valid()
      ensures !isModelLoading
      ensures result.InitOk? ==> (
        modelInitialized && error == old(error) &&
        usingMockData == old(usingMockData) && keypoints == old(keypoints))
      ensures result.InitError? ==> modelInitialized == old(modelInitialized) && error == Some(result.message)
      ensures result.InitError? && result.message == LoadFailedMessage ==> usingMockData && keypoints == mockKeypoints
      ensures result.InitError? && result.message != LoadFailedMessage ==> (
        usingMockData == old(usingMockData) && keypoints == old(keypoints))
      ensures movementEvaluation == old(movementEvaluation) && fps == old(fps) && processing == old(processing)
      ensures lastProcessTime == old(lastProcessTime) && updateInterval == old(updateInterval)
      ensures fpsCount == old(fpsCount) && lastFpsUpdate == old(lastFpsUpdate)
      ensures keypointsCache == old(keypointsCache) && pending == old(pending) && idle == old(idle)
    {
      isModelLoading := true;
      match result {
        case InitOk =>
          modelInitialized := true;
        case InitError(message) =>
          error := Some(message);
          if message == LoadFailedMessage {
            usingMockData := true;
            keypoints := mockKeypoints;
          }
      }
      isModelLoading := false;
    }

    /** One firing of the 500 ms mock timer. */
    method MockTimerTick(mockKeypoints: seq<Keypoint>)
      requires Valid() && usingMockData
      modifies this`keypoints
      ensures Valid() && keypoints == mockKeypoints
    {
      keypoints := mockKeypoints;
    }

    /** The frame counter and, once per FPS window, the published rate and
        the interval adjustment. `fps` as read by the adjustment is the value
        published by the previous window, not the count just taken. */
    method CountFrame(now: int)
      requires Valid()
      modifies this`fps, this`fpsCount, this`lastFpsUpdate, this`updateInterval
      ensures Valid()
      ensures now - old(lastFpsUpdate) >= FpsWindow ==> (
        fps == old(fpsCount) + 1 && fpsCount == 0 && lastFpsUpdate == now &&
        updateInterval == AdaptInterval(old(updateInterval), old(fps)))
      ensures now - old(lastFpsUpdate) < FpsWindow ==> (
        fps == old(fps) && fpsCount == old(fpsCount) + 1 && lastFpsUpdate == old(lastFpsUpdate) &&
        updateInterval == old(updateInterval))
    {
      fpsCount := fpsCount + 1;
      if now - lastFpsUpdate >= FpsWindow {
        var staleFps := fps;
        fps := fpsCount;
        fpsCount := 0;
        lastFpsUpdate := now;
        AdaptIntervalStaysOnGrid(updateInterval, staleFps);
        updateInterval := AdaptInterval(updateInterval, staleFps);
      }
    }

    /** The synchronous part of processFrame, up to the await: count the
        frame, then mock mode, the in-flight gate, the throttle, and the
        start of an extraction. */
    method BeginFrame(now: int, movementType: string, mockKeypoints: seq<Keypoint>, mockEvaluation: Evaluation)
      returns (start: FrameStart)
      requires Valid()
      modifies this
      ensures Valid()
      ensures now - old(lastFpsUpdate) >= FpsWindow ==> (
        fps == old(fpsCount) + 1 && fpsCount == 0 && lastFpsUpdate == now &&
        updateInterval == AdaptInterval(old(updateInterval), old(fps)))
      ensures now - old(lastFpsUpdate) < FpsWindow ==> (
        fps == old(fps) && fpsCount == old(fpsCount) + 1 && lastFpsUpdate == old(lastFpsUpdate) &&
        updateInterval == old(updateInterval))
      ensures old(usingMockData) <==> start == MockFrame
      ensures start == Skipped <==> (!old(usingMockData) && (old(processing) || !old(modelInitialized)))
      ensures start == Throttled <==> (!old(usingMockData) && !old(processing) && old(modelInitialized) &&
                                       now - old(lastProcessTime) < updateInterval)
      ensures start == MockFrame ==> (
        keypoints == mockKeypoints &&
        movementEvaluation == (if movementType != "" then Some(mockEvaluation) else old(movementEvaluation)))
      ensures start != MockFrame ==> movementEvaluation == old(movementEvaluation)
      ensures start == Skipped ==> keypoints == old(keypoints)
      ensures start == Throttled ==> keypoints == (if |old(keypointsCache)| > 0 then old(keypointsCache) else old(keypoints))
      ensures start == Started ==> (
        processing && lastProcessTime == now &&
        pending == Some(Pending(movementType, old(keypoints))) && keypoints == old(keypoints))
      ensures start != Started ==> (
        processing == old(processing) && pending == old(pending) && lastProcessTime == old(lastProcessTime))
      ensures keypointsCache == old(keypointsCache) && idle == old(idle) && error == old(error)
      ensures usingMockData == old(usingMockData) && modelInitialized == old(modelInitialized)
      ensures isModelLoading == old(isModelLoading)
    {
      CountFrame(now);
      if usingMockData {
        keypoints := mockKeypoints;
        if movementType != "" {
          movementEvaluation := Some(mockEvaluation);
        }
        return MockFrame;
      }
      if processing || !modelInitialized {
        return Skipped;
      }
      if now - lastProcessTime < updateInterval {
        if |keypointsCache| > 0 {
          keypoints := keypointsCache;
        }
        return Throttled;
      }
      lastProcessTime := now;
      processing := true;
      pending := Some(Pending(movementType, keypoints));
      return Started;
    }

    /** The rest of processFrame once the extraction settled, including the
        `finally` that clears the in-flight flag. */
    method FinishFrame(result: Extraction, mockKeypoints: seq<Keypoint>, mockEvaluation: Evaluation)
      requires Valid() && processing
      modifies this
      ensures Valid() && !processing && pending == None
      ensures result.Extracted? ==>
        var kps, p := result.keypoints, old(pending).value;
        && keypointsCache == (if |kps| > 0 then kps else old(keypointsCache))
        && keypoints == (if KeypointsChanged(p.publishedAtStart, kps) then kps else old(keypoints))
        && idle == (if p.movementType != "" && |kps| > 0 && fpsCount % 3 == 0
                    then Some(IdleEvaluation(kps, p.movementType)) else old(idle))
        && error == old(error) && movementEvaluation == old(movementEvaluation)
      ensures result.Threw? ==>
        && error == Some(result.message) && keypoints == mockKeypoints && keypointsCache == mockKeypoints
        && movementEvaluation == (if old(pending).value.movementType != "" then Some(mockEvaluation)
                                  else old(movementEvaluation))
        && idle == old(idle)
      ensures fps == old(fps) && fpsCount == old(fpsCount) && lastFpsUpdate == old(lastFpsUpdate)
      ensures updateInterval == old(updateInterval) && lastProcessTime == old(lastProcessTime)
      ensures usingMockData == old(usingMockData) && modelInitialized == old(modelInitialized)
      ensures isModelLoading == old(isModelLoading)
    {
      var p := pending.value;
      match result {
        case Extracted(kps) =>
          if |kps| > 0 {
            keypointsCache := kps;
          }
          var changed := HasKeypointsChanged(p.publishedAtStart, kps);
          if changed {
            keypoints := kps;
          }
          if p.movementType != "" && |kps| > 0 && fpsCount % 3 == 0 {
            idle := Some(IdleEvaluation(kps, p.movementType));
          }
        case Threw(message) =>
          error := Some(message);
          keypoints := mockKeypoints;
          keypointsCache := mockKeypoints;
          if p.movementType != "" {
            movementEvaluation := Some(mockEvaluation);
          }
      }
      processing := false;
      pending := None;
    }

    /** The idle callback: evaluates the queued frame. */
    method RunIdleEvaluation(geometry: Geometry)
      requires Valid() && idle.Some?
      modifies this`movementEvaluation, this`idle
      ensures Valid() && idle == None
      ensures movementEvaluation == Some(EvaluateMovement(old(idle).value.keypoints, old(idle).value.movementType, geometry))
    {
      var job := idle.value;
      movementEvaluation := Some(EvaluateMovement(job.keypoints, job.movementType, geometry));
      idle := None;
    }
  }
}
