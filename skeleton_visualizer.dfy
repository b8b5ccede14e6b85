/** The still-image skeleton drawing of RehabHub
    (RehabHub/src/shared/components/SkeletonVisualizer.tsx): which bones and
    points drawSkeleton paints, with their colour band, radius and label. */
module SkeletonVisualizer {
  import opened Wrappers
  import opened Keypoints

  const DefaultWidth: real := 400.0
  const DefaultHeight: real := 300.0
  /** Bones and points need a score strictly above this. */
  const MinScore: real := 0.3

  datatype Connection = Connection(from: string, to: string)

  /** The 16 COCO bones used when the caller passes none. */
  const DefaultConnections: seq<Connection> := [
    Connection("nose", "left_eye"), Connection("left_eye", "left_ear"),
    Connection("nose", "right_eye"), Connection("right_eye", "right_ear"),
    Connection("right_shoulder", "right_elbow"), Connection("right_elbow", "right_wrist"),
    Connection("left_shoulder", "left_elbow"), Connection("left_elbow", "left_wrist"),
    Connection("left_shoulder", "right_shoulder"), Connection("left_shoulder", "left_hip"),
    Connection("right_shoulder", "right_hip"), Connection("left_hip", "right_hip"),
    Connection("right_hip", "right_knee"), Connection("right_knee", "right_ankle"),
    Connection("left_hip", "left_knee"), Connection("left_knee", "left_ankle")
  ]

  /** The component's props with their defaults applied. */
  datatype Layout = Layout(width: real, height: real, connections: seq<Connection>)

  function LayoutOf(width: Option<real>, height: Option<real>, connections: Option<seq<Connection>>): (r: Layout)
    ensures width.None? ==> r.width == 400.0
    ensures height.None? ==> r.height == 300.0
    ensures connections.None? ==> r.connections == DefaultConnections && |r.connections| == 16
    ensures width.Some? ==> r.width == width.value
    ensures height.Some? ==> r.height == height.value
    ensures connections.Some? ==> r.connections == connections.value
  {
    Layout(width.GetOr(DefaultWidth), height.GetOr(DefaultHeight), connections.GetOr(DefaultConnections))
  }

  /** The three confidence colours. */
  const Red: string := "#e74c3c"
  const Orange: string := "#f39c12"
  const Blue: string := "#3498db"

  /** Colour band: red below 0.5, orange below 0.7, blue otherwise. */
  function Band(score: real): (colour: string)
    ensures colour == Red <==> score < 0.5
    ensures colour == Orange <==> 0.5 <= score < 0.7
    ensures colour == Blue <==> score >= 0.7
  {
    if score < 0.5 then Red else if score < 0.7 then Orange else Blue
  }

  /** A bone or a point is drawn only with a truthy score above 0.3. */
  predicate Confident(k: Keypoint) {
    k.score.Some? && k.score.value > MinScore
  }

  datatype Stroke = Stroke(x1: real, y1: real, x2: real, y2: real, colour: string)

  datatype Mark = Mark(x: real, y: real, radius: real, colour: string, caption: string)

  /** The stroke for one connection: both ends found by their first match
      and confident; coloured by the mean score; not clamped. */
  function StrokeFor(kps: seq<Keypoint>, c: Connection, width: real, height: real): (r: Option<Stroke>)
    ensures r.Some? <==>
      FindFirst(kps, c.from).Some? && FindFirst(kps, c.to).Some? &&
      Confident(FindFirst(kps, c.from).value) && Confident(FindFirst(kps, c.to).value)
    ensures r.Some? ==>
      var a, b := FindFirst(kps, c.from).value, FindFirst(kps, c.to).value;
      r.value == Stroke(a.x * width, a.y * height, b.x * width, b.y * height,
                        Band((a.score.value + b.score.value) / 2.0))
  {
    var a, b := FindFirst(kps, c.from), FindFirst(kps, c.to);
    if a.Some? && b.Some? && Confident(a.value) && Confident(b.value) then
      Some(Stroke(a.value.x * width, a.value.y * height, b.value.x * width, b.value.y * height,
                  Band((a.value.score.value + b.value.score.value) / 2.0)))
    else None
  }

  /** The point radius band: 3, 3.5 or 4. */
  function Radius(score: real): (r: real)
    ensures score < 0.5 ==> r == 3.0
    ensures 0.5 <= score < 0.7 ==> r == 3.5
    ensures score >= 0.7 ==> r == 4.0
  {
    if score < 0.5 then 3.0 else if score < 0.7 then 3.5 else 4.0
  }

  function MarkFor(k: Keypoint, width: real, height: real): Mark
    requires Confident(k)
  {
    Mark(k.x * width, k.y * height, Radius(k.score.value), Band(k.score.value), k.name)
  }

  function Strokes(kps: seq<Keypoint>, conns: seq<Connection>, width: real, height: real): seq<Stroke> {
    if conns == [] then []
    else
      var last := StrokeFor(kps, conns[|conns| - 1], width, height);
      Strokes(kps, conns[..|conns| - 1], width, height) + (if last.Some? then [last.value] else [])
  }

  function Marks(kps: seq<Keypoint>, width: real, height: real): seq<Mark> {
    if kps == [] then []
    else
      var last := kps[|kps| - 1];
      Marks(kps[..|kps| - 1], width, height) + (if Confident(last) then [MarkFor(last, width, height)] else [])
  }

  /** The painted strokes are exactly the qualifying connections, in order. */
  lemma {:induction false} StrokesAreTheQualifyingConnections(kps: seq<Keypoint>, conns: seq<Connection>, width: real, height: real)
    ensures |Strokes(kps, conns, width, height)| <= |conns|
    ensures forall s :: s in Strokes(kps, conns, width, height) ==>
      exists i :: 0 <= i < |conns| && StrokeFor(kps, conns[i], width, height) == Some(s)
    ensures forall i :: 0 <= i < |conns| && StrokeFor(kps, conns[i], width, height).Some? ==>
      StrokeFor(kps, conns[i], width, height).value in Strokes(kps, conns, width, height)
  {
    if conns != [] {
      var init := conns[..|conns| - 1];
      StrokesAreTheQualifyingConnections(kps, init, width, height);
      forall s | s in Strokes(kps, conns, width, height)
        ensures exists i :: 0 <= i < |conns| && StrokeFor(kps, conns[i], width, height) == Some(s)
      {
        if s in Strokes(kps, init, width, height) {
          var i :| 0 <= i < |init| && StrokeFor(kps, init[i], width, height) == Some(s);
          assert init[i] == conns[i];
        } else {
          assert StrokeFor(kps, conns[|conns| - 1], width, height) == Some(s);
        }
      }
      forall i | 0 <= i < |conns| - 1 && StrokeFor(kps, conns[i], width, height).Some?
        ensures StrokeFor(kps, conns[i], width, height).value in Strokes(kps, conns, width, height)
      {
        assert init[i] == conns[i];
      }
    }
  }

  /** Exactly the confident keypoints are marked, each labelled with its name. */
  lemma {:induction false} MarksAreTheConfidentKeypoints(kps: seq<Keypoint>, width: real, height: real)
    ensures |Marks(kps, width, height)| <= |kps|
    ensures forall m :: m in Marks(kps, width, height) ==>
      exists i :: 0 <= i < |kps| && Confident(kps[i]) && m == MarkFor(kps[i], width, height) && m.caption == kps[i].name
    ensures forall i :: 0 <= i < |kps| && Confident(kps[i]) ==> MarkFor(kps[i], width, height) in Marks(kps, width, height)
  {
    if kps != [] {
      var init := kps[..|kps| - 1];
      MarksAreTheConfidentKeypoints(init, width, height);
      forall m | m in Marks(kps, width, height)
        ensures exists i :: 0 <= i < |kps| && Confident(kps[i]) && m == MarkFor(kps[i], width, height) && m.caption == kps[i].name
      {
        if m in Marks(init, width, height) {
          var i :| 0 <= i < |init| && Confident(init[i]) && m == MarkFor(init[i], width, height);
          assert init[i] == kps[i];
        } else {
          assert m == MarkFor(kps[|kps| - 1], width, height);
        }
      }
      forall i | 0 <= i < |kps| - 1 && Confident(kps[i])
        ensures MarkFor(kps[i], width, height) in Marks(kps, width, height)
      {
        assert init[i] == kps[i];
      }
    }
  }

  /** The painted strokes and marks of one drawSkeleton call. */
  datatype Drawing = Drawing(strokes: seq<Stroke>, marks: seq<Mark>)

  /** drawSkeleton: the connection loop, then the keypoint loop. */
  method DrawSkeleton(kps: seq<Keypoint>, layout: Layout) returns (drawing: Drawing)
    ensures drawing == Drawing(Strokes(kps, layout.connections, layout.width, layout.height),
                               Marks(kps, layout.width, layout.height))
  {
    var conns := layout.connections;
    var strokes := [];
    var i := 0;
    while i < |conns|
      invariant 0 <= i <= |conns|
      invariant strokes == Strokes(kps, conns[..i], layout.width, layout.height)
    {
      assert conns[..i + 1][..i] == conns[..i];
      var s := StrokeFor(kps, conns[i], layout.width, layout.height);
      if s.Some? {
        strokes := strokes + [s.value];
      }
      i := i + 1;
    }
    assert conns[..|conns|] == conns;
    var marks := [];
    var j := 0;
    while j < |kps|
      invariant 0 <= j <= |kps|
      invariant marks == Marks(kps[..j], layout.width, layout.height)
    {
      assert kps[..j + 1][..j] == kps[..j];
      var k := kps[j];
      if k.score.Some? && k.score.value > MinScore {
        marks := marks + [MarkFor(k, layout.width, layout.height)];
      }
      j := j + 1;
    }
    assert kps[..|kps|] == kps;
    drawing := Drawing(strokes, marks);
  }
}
