/** The live camera overlay (src/CameraCapture.tsx): which bones and points
    a draw tick paints, the draw-interval scheduler with its keypoint
    cache, the 100 ms video-frame throttle and the keypoint source choice. */
module CameraCapture {
  import opened Wrappers
  import opened JsNumber
  import opened Strings
  import opened Keypoints

  const InitialDrawInterval: int := 100
  const MinDrawInterval: int := 30
  const MaxDrawInterval: int := 200
  const FpsWindow: int := 1000
  /** The lowest endpoint score for which a bone is drawn. */
  const MinBoneScore: real := 0.2
  const BaseDotSize: real := 5.0
  /** Scores below this get a percentage label. */
  const LabelBelow: real := 0.8
  const FrameThrottle: int := 100

  /** A pair of keypoint names to join. */
  datatype Connection = Connection(from: string, to: string)

  /** The 24 pairs: each snake_case bone followed by its camelCase twin. */
  const Connections: seq<Connection> := [
    Connection("left_shoulder", "right_shoulder"), Connection("leftShoulder", "rightShoulder"),
    Connection("left_shoulder", "left_elbow"), Connection("leftShoulder", "leftElbow"),
    Connection("right_shoulder", "right_elbow"), Connection("rightShoulder", "rightElbow"),
    Connection("left_elbow", "left_wrist"), Connection("leftElbow", "leftWrist"),
    Connection("right_elbow", "right_wrist"), Connection("rightElbow", "rightWrist"),
    Connection("left_shoulder", "left_hip"), Connection("leftShoulder", "leftHip"),
    Connection("right_shoulder", "right_hip"), Connection("rightShoulder", "rightHip"),
    Connection("left_hip", "right_hip"), Connection("leftHip", "rightHip"),
    Connection("left_hip", "left_knee"), Connection("leftHip", "leftKnee"),
    Connection("right_hip", "right_knee"), Connection("rightHip", "rightKnee"),
    Connection("left_knee", "left_ankle"), Connection("leftKnee", "leftAnkle"),
    Connection("right_knee", "right_ankle"), Connection("rightKnee", "rightAnkle")
  ]

  /** A line segment in canvas pixels with its opacity. */
  datatype Bone = Bone(x1: real, y1: real, x2: real, y2: real, alpha: real)

  /** A keypoint dot: centre, radius, opacity and an optional percentage label. */
  datatype Dot = Dot(x: real, y: real, radius: real, alpha: real, percentLabel: Option<int>)

  // ---------------------------------------------------------------------
  // Selection rules
  // ---------------------------------------------------------------------

  /** `name.replace('_', '')`: only the first underscore goes. */
  function AltName(name: string): string {
    RemoveFirst(name, '_')
  }

  /** `keypointMap.get(name) || keypointMap.get(alt)` over a Map built from
      the frame, in which a later keypoint with the same name wins. */
  function Lookup(kps: seq<Keypoint>, name: string): (r: Option<Keypoint>)
    ensures FindLast(kps, name).Some? ==> r == FindLast(kps, name)
    ensures FindLast(kps, name).None? ==> r == FindLast(kps, AltName(name))
  {
    var exact := FindLast(kps, name);
    if exact.Some? then exact else FindLast(kps, AltName(name))
  }

  /** A missing score counts as 1. */
  function ScoreOr1(k: Keypoint): real {
    k.score.GetOr(1.0)
  }

  /** A coordinate clamped to [0, 1], then scaled to canvas pixels. */
  function Scale(v: real, extent: nat): (r: real)
    ensures 0.0 <= r <= extent as real
    ensures 0.0 <= v <= 1.0 ==> r == v * extent as real
  {
    Clamp01(v) * extent as real
  }

  /** The bone for one connection, if both ends are found with scores of at
      least 0.2; its opacity is the mean of the two scores. */
  function BoneFor(kps: seq<Keypoint>, c: Connection, width: nat, height: nat): (r: Option<Bone>)
    ensures r.Some? <==>
      Lookup(kps, c.from).Some? && Lookup(kps, c.to).Some? &&
      ScoreOr1(Lookup(kps, c.from).value) >= MinBoneScore && ScoreOr1(Lookup(kps, c.to).value) >= MinBoneScore
    ensures r.Some? ==>
      && 0.0 <= r.value.x1 <= width as real && 0.0 <= r.value.x2 <= width as real
      && 0.0 <= r.value.y1 <= height as real && 0.0 <= r.value.y2 <= height as real
      && r.value.alpha >= MinBoneScore
      && r.value.alpha == (ScoreOr1(Lookup(kps, c.from).value) + ScoreOr1(Lookup(kps, c.to).value)) / 2.0
  {
    var start, end := Lookup(kps, c.from), Lookup(kps, c.to);
    if start.None? || end.None? then None
    else
      var s1, s2 := ScoreOr1(start.value), ScoreOr1(end.value);
      if s1 >= MinBoneScore && s2 >= MinBoneScore then
        Some(Bone(Scale(start.value.x, width), Scale(start.value.y, height),
                  Scale(end.value.x, width), Scale(end.value.y, height), (s1 + s2) / 2.0))
      else None
  }

  /** The bones of the connections, in connection order. */
  function Bones(kps: seq<Keypoint>, conns: seq<Connection>, width: nat, height: nat): seq<Bone> {
    if conns == [] then []
    else
      var last := BoneFor(kps, conns[|conns| - 1], width, height);
      Bones(kps, conns[..|conns| - 1], width, height) + (if last.Some? then [last.value] else [])
  }

  /** Every painted bone comes from a connection whose bone qualifies. */
  lemma {:induction false} BonesAreSound(kps: seq<Keypoint>, conns: seq<Connection>, width: nat, height: nat)
    ensures |Bones(kps, conns, width, height)| <= |conns|
    ensures forall b :: b in Bones(kps, conns, width, height) ==>
      exists i :: 0 <= i < |conns| && BoneFor(kps, conns[i], width, height) == Some(b)
  {
    if conns != [] {
      var init := conns[..|conns| - 1];
      BonesAreSound(kps, init, width, height);
      forall b | b in Bones(kps, conns, width, height)
        ensures exists i :: 0 <= i < |conns| && BoneFor(kps, conns[i], width, height) == Some(b)
      {
        if b in Bones(kps, init, width, height) {
          var i :| 0 <= i < |init| && BoneFor(kps, init[i], width, height) == Some(b);
          assert init[i] == conns[i];
        } else {
          assert BoneFor(kps, conns[|conns| - 1], width, height) == Some(b);
        }
      }
    }
  }

  /** Every connection whose bone qualifies is painted. */
  lemma {:induction false} BonesAreComplete(kps: seq<Keypoint>, conns: seq<Connection>, width: nat, height: nat)
    ensures forall i :: 0 <= i < |conns| && BoneFor(kps, conns[i], width, height).Some? ==>
      BoneFor(kps, conns[i], width, height).value in Bones(kps, conns, width, height)
  {
    if conns != [] {
      var init := conns[..|conns| - 1];
      BonesAreComplete(kps, init, width, height);
      forall i | 0 <= i < |conns| - 1 && BoneFor(kps, conns[i], width, height).Some?
        ensures BoneFor(kps, conns[i], width, height).value in Bones(kps, conns, width, height)
      {
        assert init[i] == conns[i];
      }
    }
  }

  /** Every painted bone lies on the canvas and is at least 0.2 opaque. */
  lemma BonesOnCanvas(kps: seq<Keypoint>, conns: seq<Connection>, width: nat, height: nat)
    ensures forall b :: b in Bones(kps, conns, width, height) ==>
      0.0 <= b.x1 <= width as real && 0.0 <= b.x2 <= width as real &&
      0.0 <= b.y1 <= height as real && 0.0 <= b.y2 <= height as real && b.alpha >= MinBoneScore
  {
    BonesAreSound(kps, conns, width, height);
    forall b | b in Bones(kps, conns, width, height)
      ensures 0.0 <= b.x1 <= width as real && 0.0 <= b.x2 <= width as real &&
              0.0 <= b.y1 <= height as real && 0.0 <= b.y2 <= height as real && b.alpha >= MinBoneScore
    {
      var i :| 0 <= i < |conns| && BoneFor(kps, conns[i], width, height) == Some(b);
    }
  }

  /** The connection loop of drawKeypoints. */
  method DrawBones(kps: seq<Keypoint>, conns: seq<Connection>, width: nat, height: nat) returns (bones: seq<Bone>)
    ensures bones == Bones(kps, conns, width, height)
  {
    bones := [];
    var i := 0;
    while i < |conns|
      invariant 0 <= i <= |conns|
      invariant bones == Bones(kps, conns[..i], width, height)
    {
      assert conns[..i + 1][..i] == conns[..i];
      var bone := BoneFor(kps, conns[i], width, height);
      if bone.Some? {
        bones := bones + [bone.value];
      }
      i := i + 1;
    }
    assert conns[..|conns|] == conns;
  }

  /** The alternate name drops the first underscore and keeps any later
    one: `left_shoulder` becomes `leftshoulder` (not `leftShoulder`), and
    `a_b_c` becomes `ab_c`. */
  lemma AltNameDropsFirstUnderscoreOnly(a: string, b: string)
    requires '_' !in a
    ensures AltName(a + "_" + b) == a + b
    ensures '_' in b ==> '_' in AltName(a + "_" + b)
  {
    RemoveFirstAt(a, '_', b);
    assert a + "_" + b == a + ['_'] + b;
    if '_' in b {
      var k :| 0 <= k < |b| && b[k] == '_';
      assert (a + b)[|a| + k] == '_';
    }
  }

  /** The dot for one keypoint: every keypoint gets one, whatever its score. */
  function DotFor(k: Keypoint, width: nat, height: nat): Dot {
    var s := ScoreOr1(k);
    Dot(Scale(k.x, width), Scale(k.y, height), BaseDotSize + s * BaseDotSize * 0.5, s,
        if k.score.Some? && k.score.value < LabelBelow then Some(Round(k.score.value * 100.0)) else None)
  }

  /** The dots of a frame, one per keypoint, in frame order. */
  function Dots(kps: seq<Keypoint>, width: nat, height: nat): seq<Dot> {
    seq(|kps|, i requires 0 <= i < |kps| => DotFor(kps[i], width, height))
  }

  /** The point loop of drawKeypoints. */
  method DrawPoints(kps: seq<Keypoint>, width: nat, height: nat) returns (dots: seq<Dot>)
    ensures dots == Dots(kps, width, height)
    ensures |dots| == |kps|
    ensures forall i :: 0 <= i < |kps| ==>
      && 0.0 <= dots[i].x <= width as real && 0.0 <= dots[i].y <= height as real
      && dots[i].x == Clamp01(kps[i].x) * width as real && dots[i].y == Clamp01(kps[i].y) * height as real
      && dots[i].radius == 5.0 + 2.5 * ScoreOr1(kps[i]) && dots[i].alpha == ScoreOr1(kps[i])
      && (dots[i].percentLabel.Some? <==> kps[i].score.Some? && kps[i].score.value < 0.8)
      && (dots[i].percentLabel.Some? ==>
            kps[i].score.value * 100.0 - 0.5 < dots[i].percentLabel.value as real <= kps[i].score.value * 100.0 + 0.5)
  {
    dots := [];
    var i := 0;
    while i < |kps|
      invariant 0 <= i <= |kps|
      invariant dots == seq(i, j requires 0 <= j < i => DotFor(kps[j], width, height))
    {
      dots := dots + [DotFor(kps[i], width, height)];
      i := i + 1;
    }
  }

  // ---------------------------------------------------------------------
  // Draw scheduler
  // ---------------------------------------------------------------------

  /** The draw-interval adjustment from the frames counted in the window. */
  function AdaptDrawInterval(interval: int, fps: nat): (r: int)
    ensures MinDrawInterval <= interval <= MaxDrawInterval ==> MinDrawInterval <= r <= MaxDrawInterval
    ensures 20 <= fps <= 30 ==> r == interval
    ensures fps < 20 && interval <= MaxDrawInterval ==> interval <= r <= interval + 5 && (r == interval + 5 || r == MaxDrawInterval)
    ensures fps > 30 && interval >= MinDrawInterval ==> interval - 5 <= r <= interval && (r == interval - 5 || r == MinDrawInterval)
  {
    if fps < 20 then (if interval + 5 > MaxDrawInterval then MaxDrawInterval else interval + 5)
    else if fps > 30 then (if interval - 5 < MinDrawInterval then MinDrawInterval else interval - 5)
    else interval
  }

  /** The draw interval stays on the grid 30, 35, ..., 200 that 100 starts on. */
  lemma AdaptDrawIntervalStaysOnGrid(interval: int, fps: nat)
    requires MinDrawInterval <= interval <= MaxDrawInterval && (interval - MinDrawInterval) % 5 == 0
    ensures var r := AdaptDrawInterval(interval, fps);
      && MinDrawInterval <= r <= MaxDrawInterval && (r - MinDrawInterval) % 5 == 0
      && (r == interval || r == interval + 5 || r == interval - 5)
  {
  }

  /** The overlay canvas as the tick finds it: missing, camera not active
      or no 2-D context; or a canvas of the given size. */
  datatype Surface = Unavailable | Canvas(width: nat, height: nat)

  /** What one draw tick paints. */
  datatype Painted = Painted(cleared: bool, bones: seq<Bone>, dots: seq<Dot>)

  /** The test for new data (JSON comparison taken as value equality). */
  predicate HasNewKeypoints(kps: seq<Keypoint>, cache: seq<Keypoint>) {
    |kps| > 0 && (|kps| != |cache| || kps != cache)
  }

  /** What a tick that reaches a canvas paints: the clear decision, then
      bones and dots only for a non-empty frame on a canvas of non-zero size. */
  function Paint(kps: seq<Keypoint>, cache: seq<Keypoint>, width: nat, height: nat): Painted {
    var draws := |kps| > 0 && width > 0 && height > 0;
    Painted(HasNewKeypoints(kps, cache) || width == 0 || height == 0,
            if draws then Bones(kps, Connections, width, height) else [],
            if draws then Dots(kps, width, height) else [])
  }

  /** The refs read and written by drawKeypoints. */
  class SkeletonOverlay {
    var drawInterval: int
    var lastDrawTime: int
    var frameCount: nat
    var lastFpsUpdateTime: int
    var avgFrameTime: int
    var keypointsCache: seq<Keypoint>

    ghost predicate Valid()
      reads this`drawInterval
    {
      MinDrawInterval <= drawInterval <= MaxDrawInterval && (drawInterval - MinDrawInterval) % 5 == 0
    }

    constructor ()
      ensures Valid()
      ensures drawInterval == InitialDrawInterval && lastDrawTime == 0 && frameCount == 0
      ensures lastFpsUpdateTime == 0 && avgFrameTime == 0 && keypointsCache == []
    {
      drawInterval := InitialDrawInterval;
      lastDrawTime := 0;
      frameCount := 0;
      lastFpsUpdateTime := 0;
      avgFrameTime := 0;
      keypointsCache := [];
    }

    /** The frame counter, the once-a-second interval adjustment from the
        fresh count, and the draw time. */
    method CountDraw(now: int, elapsed: int)
      requires Valid()
      modifies this`frameCount, this`lastFpsUpdateTime, this`drawInterval, this`avgFrameTime, this`lastDrawTime
      ensures Valid() && lastDrawTime == now
      ensures now - old(lastFpsUpdateTime) >= FpsWindow ==> (
        frameCount == 0 && lastFpsUpdateTime == now && avgFrameTime == elapsed &&
        drawInterval == AdaptDrawInterval(old(drawInterval), old(frameCount) + 1))
      ensures now - old(lastFpsUpdateTime) < FpsWindow ==> (
        frameCount == old(frameCount) + 1 && lastFpsUpdateTime == old(lastFpsUpdateTime) &&
        avgFrameTime == old(avgFrameTime) && drawInterval == old(drawInterval))
    {
      frameCount := frameCount + 1;
      if now - lastFpsUpdateTime >= FpsWindow {
        var currentFps := frameCount;
        frameCount := 0;
        lastFpsUpdateTime := now;
        AdaptDrawIntervalStaysOnGrid(drawInterval, currentFps);
        drawInterval := AdaptDrawInterval(drawInterval, currentFps);
        avgFrameTime := elapsed;
      }
      lastDrawTime := now;
    }

    /** drawKeypoints. Without the skeleton, or within the draw interval,
        nothing changes. The cache is replaced exactly when the canvas is
        cleared. */
    method DrawTick(now: int, showSkeleton: bool, surface: Surface, kps: seq<Keypoint>)
      returns (painted: Option<Painted>)
      requires Valid()
      modifies this
      ensures Valid()
      ensures !showSkeleton || now - old(lastDrawTime) < old(drawInterval) ==> (
        painted == None && drawInterval == old(drawInterval) && lastDrawTime == old(lastDrawTime) &&
        frameCount == old(frameCount) && lastFpsUpdateTime == old(lastFpsUpdateTime) &&
        avgFrameTime == old(avgFrameTime) && keypointsCache == old(keypointsCache))
      ensures showSkeleton && now - old(lastDrawTime) >= old(drawInterval) ==> (
        lastDrawTime == now &&
        (now - old(lastFpsUpdateTime) >= FpsWindow ==>
           frameCount == 0 && lastFpsUpdateTime == now && avgFrameTime == now - old(lastDrawTime) &&
           drawInterval == AdaptDrawInterval(old(drawInterval), old(frameCount) + 1)) &&
        (now - old(lastFpsUpdateTime) < FpsWindow ==>
           frameCount == old(frameCount) + 1 && lastFpsUpdateTime == old(lastFpsUpdateTime) &&
           avgFrameTime == old(avgFrameTime) && drawInterval == old(drawInterval)) &&
        (surface.Unavailable? ==> painted == None && keypointsCache == old(keypointsCache)) &&
        (surface.Canvas? ==>
           var p := Paint(kps, old(keypointsCache), surface.width, surface.height);
           painted == Some(p) && keypointsCache == (if p.cleared then kps else old(keypointsCache))))
    {
      if !showSkeleton {
        return None;
      }
      if now - lastDrawTime < drawInterval {
        return None;
      }
      painted := DueTick(now, surface, kps);
    }

    /** A tick past the draw interval: count the draw, then paint when
        there is a canvas. */
    method DueTick(now: int, surface: Surface, kps: seq<Keypoint>) returns (painted: Option<Painted>)
      requires Valid()
      modifies this
      ensures Valid()
      ensures lastDrawTime == now
      ensures now - old(lastFpsUpdateTime) >= FpsWindow ==>
        frameCount == 0 && lastFpsUpdateTime == now && avgFrameTime == now - old(lastDrawTime) &&
        drawInterval == AdaptDrawInterval(old(drawInterval), old(frameCount) + 1)
      ensures now - old(lastFpsUpdateTime) < FpsWindow ==>
        frameCount == old(frameCount) + 1 && lastFpsUpdateTime == old(lastFpsUpdateTime) &&
        avgFrameTime == old(avgFrameTime) && drawInterval == old(drawInterval)
      ensures surface.Unavailable? ==> painted == None && keypointsCache == old(keypointsCache)
      ensures surface.Canvas? ==>
        var p := Paint(kps, old(keypointsCache), surface.width, surface.height);
        painted == Some(p) && keypointsCache == (if p.cleared then kps else old(keypointsCache))
    {
      CountDraw(now, now - lastDrawTime);
      if surface.Unavailable? {
        return None;
      }
      var p := PaintCanvas(surface.width, surface.height, kps);
      painted := Some(p);
    }

    /** The painting on a canvas of the given size: clear and recache unless
        the keypoints are already cached on a sized canvas, then draw. */
    method PaintCanvas(w: nat, h: nat, kps: seq<Keypoint>) returns (p: Painted)
      modifies this`keypointsCache
      ensures p == Paint(kps, old(keypointsCache), w, h)
      ensures keypointsCache == if p.cleared then kps else old(keypointsCache)
    {
      var cleared := false;
      if !HasNewKeypoints(kps, keypointsCache) && w > 0 && h > 0 {
      } else {
        cleared := true;
        keypointsCache := kps;
      }
      var bones, dots := [], [];
      if |kps| > 0 && w > 0 && h > 0 {
        bones := DrawBones(kps, Connections, w, h);
        dots := DrawPoints(kps, w, h);
      }
      p := Painted(cleared, bones, dots);
    }
  }

  /** A painted frame redraws every keypoint and only qualifying bones, all
      on the canvas; a frame already in the cache on a sized canvas is
      painted over without clearing. */
  lemma PaintFacts(kps: seq<Keypoint>, cache: seq<Keypoint>, width: nat, height: nat)
    ensures var p := Paint(kps, cache, width, height);
      && (p.cleared <==> (|kps| > 0 && kps != cache) || width == 0 || height == 0)
      && (|kps| > 0 && width > 0 && height > 0 ==> |p.dots| == |kps|)
      && (forall d :: d in p.dots ==> 0.0 <= d.x <= width as real && 0.0 <= d.y <= height as real)
      && (forall b :: b in p.bones ==>
            0.0 <= b.x1 <= width as real && 0.0 <= b.x2 <= width as real &&
            0.0 <= b.y1 <= height as real && 0.0 <= b.y2 <= height as real && b.alpha >= MinBoneScore)
      && (|kps| == 0 || width == 0 || height == 0 ==> p.bones == [] && p.dots == [])
  {
    BonesOnCanvas(kps, Connections, width, height);
  }

  /** Which keypoints the overlay shows: the caller's when it passed any,
      otherwise the component's own estimates. */
  function Combined(external: seq<Keypoint>, estimated: seq<Keypoint>): (r: seq<Keypoint>)
    ensures |external| > 0 ==> r == external
    ensures |external| == 0 ==> r == estimated
  {
    if |external| > 0 then external else estimated
  }

  /** What one processVideoFrame tick triggers. */
  datatype FrameActions = FrameActions(calledBack: bool, estimated: bool)

  /** The video-frame loop and its `lastProcessTimeRef`. */
  class VideoFrameLoop {
    var lastProcessTime: int

    constructor ()
      ensures lastProcessTime == 0
    {
      lastProcessTime := 0;
    }

    /** processVideoFrame: acts at most once per strictly more than 100 ms of an
        active camera, and estimates internally only without external keypoints
        and while the hook reports no processing. */
    method Tick(now: int, cameraActive: bool, hasFrameCallback: bool, external: seq<Keypoint>, isProcessing: bool)
      returns (actions: FrameActions)
      modifies this
      ensures var fires := cameraActive && now - old(lastProcessTime) > FrameThrottle;
        && lastProcessTime == (if fires then now else old(lastProcessTime))
        && actions.calledBack == (fires && hasFrameCallback)
        && actions.estimated == (fires && |external| == 0 && !isProcessing)
    {
      actions := FrameActions(false, false);
      if !cameraActive {
        return;
      }
      if now - lastProcessTime > FrameThrottle {
        lastProcessTime := now;
        actions := FrameActions(hasFrameCallback, |external| == 0 && !isProcessing);
      }
    }
  }
}
