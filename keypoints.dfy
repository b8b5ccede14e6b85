/** The validated keypoint shared by detection, scheduling, scoring and the
    overlays: a named landmark with coordinates as fractions of the frame and
    an optional confidence. */
module Keypoints {
  import opened Wrappers

  datatype Keypoint = Keypoint(name: string, x: real, y: real, score: Option<real>)

  /** `keypoints.find(kp => kp.name === name)`: the first keypoint so named. */
  function FindFirst(kps: seq<Keypoint>, name: string): (r: Option<Keypoint>)
    ensures r.Some? ==> exists i :: 0 <= i < |kps| && kps[i] == r.value && r.value.name == name
                          && forall j :: 0 <= j < i ==> kps[j].name != name
    ensures r.None? <==> forall i :: 0 <= i < |kps| ==> kps[i].name != name
  {
    if kps == [] then None
    else if kps[0].name == name then Some(kps[0])
    else
      var r := FindFirst(kps[1..], name);
      assert r.Some? ==> exists i :: 0 <= i < |kps| - 1 && kps[1..][i] == r.value;
      r
  }

  /** `new Map(kps.map(kp => [kp.name, kp])).get(name)`: a JavaScript Map
      built from the list keeps the LAST keypoint of each name. */
  function FindLast(kps: seq<Keypoint>, name: string): (r: Option<Keypoint>)
    ensures r.Some? ==> exists i :: 0 <= i < |kps| && kps[i] == r.value && r.value.name == name
                          && forall j :: i < j < |kps| ==> kps[j].name != name
    ensures r.None? <==> forall i :: 0 <= i < |kps| ==> kps[i].name != name
  {
    if kps == [] then None
    else if kps[|kps| - 1].name == name then Some(kps[|kps| - 1])
    else
      var init := kps[..|kps| - 1];
      var r := FindLast(init, name);
      assert forall i :: 0 <= i < |init| ==> init[i] == kps[i];
      assert r.Some? ==> forall j :: |init| <= j < |kps| ==> kps[j].name != name;
      r
  }

  /** `kp.score || 0`. */
  function ScoreOrZero(k: Keypoint): real { k.score.GetOr(0.0) }

  /** Sum of `kp.score || 0` over a list. */
  function SumScores(kps: seq<Keypoint>): real {
    if kps == [] then 0.0 else ScoreOrZero(kps[0]) + SumScores(kps[1..])
  }
}
