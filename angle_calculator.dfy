/** The guarded joint-angle calculator (src/shared/components/AngleCalculator.tsx).
    `Math.sqrt` and `Math.acos` are parameters; the guards, the clamp and
    the result shape are modelled exactly. */
module AngleCalculator {
  import opened Wrappers
  import opened JsNumber

  /** `Math.PI` as a double. */
  const Pi: real := 3.141592653589793

  datatype Point = Point(x: real, y: real, name: string)

  datatype AngleResult = AngleResult(angle: real, joint: string, isValid: bool)

  /** Some coordinate is exactly 0, which the calculator takes as "not detected". */
  predicate HasZeroCoordinate(p1: Point, p2: Point, p3: Point) {
    p1.x == 0.0 || p1.y == 0.0 || p2.x == 0.0 || p2.y == 0.0 || p3.x == 0.0 || p3.y == 0.0
  }

  function Dot(ax: real, ay: real, bx: real, bY: real): real {
    ax * bx + ay * bY
  }

  /** `Math.max(-1, Math.min(1, c))`. */
  function ClampCosine(c: real): (r: real)
    ensures -1.0 <= r <= 1.0
    ensures -1.0 <= c <= 1.0 ==> r == c
    ensures c > 1.0 ==> r == 1.0
    ensures c < -1.0 ==> r == -1.0
  {
    Max(-1.0, Min(1.0, c))
  }

  /** The two vectors from the vertex p2, and their lengths. */
  function Vectors(p1: Point, p2: Point, p3: Point): (real, real, real, real) {
    (p1.x - p2.x, p1.y - p2.y, p3.x - p2.x, p3.y - p2.y)
  }

  function Magnitude(vx: real, vy: real, sqrt: real -> real): real {
    sqrt(Dot(vx, vy, vx, vy))
  }

  /** The clamped cosine of the angle between the two vectors. */
  function Cosine(v: (real, real, real, real), sqrt: real -> real): (c: real)
    requires Magnitude(v.0, v.1, sqrt) != 0.0 && Magnitude(v.2, v.3, sqrt) != 0.0
    ensures -1.0 <= c <= 1.0
  {
    ClampCosine(Dot(v.0, v.1, v.2, v.3) / (Magnitude(v.0, v.1, sqrt) * Magnitude(v.2, v.3, sqrt)))
  }

  /** The angle in degrees at p2 once both magnitudes are non-zero. */
  function Degrees(p1: Point, p2: Point, p3: Point, sqrt: real -> real, acos: real -> real): real
    requires Magnitude(Vectors(p1, p2, p3).0, Vectors(p1, p2, p3).1, sqrt) != 0.0
    requires Magnitude(Vectors(p1, p2, p3).2, Vectors(p1, p2, p3).3, sqrt) != 0.0
  {
    var v := Vectors(p1, p2, p3);
    acos(Cosine(v, sqrt)) * (180.0 / Pi)
  }

  /** calculateAngle with `jointName` defaulting to "". */
  function CalculateAngle(p1: Point, p2: Point, p3: Point, jointName: Option<string>,
                          sqrt: real -> real, acos: real -> real): (r: AngleResult)
    ensures r.joint == jointName.GetOr("")
    ensures HasZeroCoordinate(p1, p2, p3) ==> r.angle == 0.0 && !r.isValid
    ensures var v := Vectors(p1, p2, p3);
      var m1, m2 := Magnitude(v.0, v.1, sqrt), Magnitude(v.2, v.3, sqrt);
      && (r.isValid <==> !HasZeroCoordinate(p1, p2, p3) && m1 != 0.0 && m2 != 0.0)
      && (!r.isValid ==> r.angle == 0.0)
      && (r.isValid ==> r.angle == Round2(Degrees(p1, p2, p3, sqrt, acos)))
  {
    var joint := jointName.GetOr("");
    if HasZeroCoordinate(p1, p2, p3) then AngleResult(0.0, joint, false)
    else
      var (v1x, v1y, v2x, v2y) := Vectors(p1, p2, p3);
      if Magnitude(v1x, v1y, sqrt) == 0.0 || Magnitude(v2x, v2y, sqrt) == 0.0 then AngleResult(0.0, joint, false)
      else AngleResult(Round2(Degrees(p1, p2, p3, sqrt, acos)), joint, true)
  }

  /** Two coincident points give a zero-length vector and an invalid result,
      as soon as the square root of 0 is 0. */
  lemma CoincidentPointsAreInvalid(p1: Point, p2: Point, p3: Point, jointName: Option<string>,
                                   sqrt: real -> real, acos: real -> real)
    requires sqrt(0.0) == 0.0
    requires p1.x == p2.x && p1.y == p2.y
    ensures CalculateAngle(p1, p2, p3, jointName, sqrt, acos) == AngleResult(0.0, jointName.GetOr(""), false)
  {
    assert Magnitude(p1.x - p2.x, p1.y - p2.y, sqrt) == sqrt(0.0);
  }

  /** With `Math.acos` mapping [-1, 1] into [0, π], a valid angle lies in [0, 180]. */
  lemma ValidAngleInRange(p1: Point, p2: Point, p3: Point, jointName: Option<string>,
                          sqrt: real -> real, acos: real -> real)
    requires forall c :: -1.0 <= c <= 1.0 ==> 0.0 <= acos(c) <= Pi
    ensures var r := CalculateAngle(p1, p2, p3, jointName, sqrt, acos);
      0.0 <= r.angle <= 180.0
  {
    var r := CalculateAngle(p1, p2, p3, jointName, sqrt, acos);
    if r.isValid {
      var a := acos(Cosine(Vectors(p1, p2, p3), sqrt));
      assert 0.0 <= a <= Pi;
      var deg := Degrees(p1, p2, p3, sqrt, acos);
      assert 0.0 <= deg <= 180.0 by {
        assert a * (180.0 / Pi) <= Pi * (180.0 / Pi);
        assert Pi * (180.0 / Pi) == 180.0;
      }
      RoundStaysInRange(deg * 100.0, 18000);
    }
  }

  /** Rounding a value in [0, hi] for a whole hi stays in [0, hi]. */
  lemma RoundStaysInRange(x: real, hi: int)
    requires 0.0 <= x <= hi as real
    ensures 0 <= Round(x) <= hi
  {
    var f := (x + 0.5).Floor;
    assert f as real <= x + 0.5 < hi as real + 1.0;
  }
}
