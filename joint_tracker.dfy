/**
 * The computational core of the joint stress tracker: the included angle at
 * a joint, folded into the non-reflex range [0, 180] degrees, and the
 * three-level stress classifier that maps that angle to a label and the BGR
 * colour the overlay is drawn in.
 *
 * Angles are modelled as exact reals.  The two-argument arctangent and the
 * constant pi are not computed here: they are parameters, constrained only
 * by the range the arctangent is known to return.
 */
module JointTracker {

  /** A colour as OpenCV takes it: blue, green, red, each 0..255. */
  datatype Bgr = Bgr(b: int, g: int, r: int)

  /** The three overlay colours the tracker fixes once when it is created. */
  const COLOR_SAFE: Bgr := Bgr(0, 255, 0)      // green
  const COLOR_WARN: Bgr := Bgr(0, 255, 255)    // yellow
  const COLOR_DANGER: Bgr := Bgr(0, 0, 255)    // red

  /** The elbow angle, in degrees, that the classifier treats as neutral. */
  const NEUTRAL: real := 100.0

  /** What the classifier hands to the renderer: a label and its colour. */
  datatype StressReading = StressReading(name: string, color: Bgr)

  /** The three ordered risk levels, used to state what a reading means. */
  datatype StressLevel = Low | Medium | High {

    function Label(): string {
      match this
      case Low => "LOW"
      case Medium => "MEDIUM"
      case High => "HIGH"
    }

    function Color(): Bgr {
      match this
      case Low => COLOR_SAFE
      case Medium => COLOR_WARN
      case High => COLOR_DANGER
    }

    /** Position in the order LOW < MEDIUM < HIGH. */
    function Rank(): nat {
      match this
      case Low => 0
      case Medium => 1
      case High => 2
    }

    function Reading(): StressReading {
      StressReading(Label(), Color())
    }
  }

  function Abs(x: real): (r: real)
    ensures r >= 0.0 && (r == x || r == -x)
  {
    if x < 0.0 then -x else x
  }

  function Min(x: real, y: real): (m: real)
    ensures m <= x && m <= y && (m == x || m == y)
  {
    if x <= y then x else y
  }

  // ---------------------------------------------------------------------
  // Stress classifier
  // ---------------------------------------------------------------------

  /**
   * Reference definition of the risk level: it depends only on how far the
   * angle lies from the neutral 100 degrees.
   */
  function LevelForDeviation(deviation: real): (level: StressLevel)
    ensures level == High <==> deviation > 60.0
    ensures level == Low <==> deviation <= 40.0
  {
    if deviation > 60.0 then High
    else if deviation > 40.0 then Medium
    else Low
  }

  /**
   * The classifier as the tracker writes it: an if/elif/else chain with
   * strict comparisons against 160/40 and then 140/60.  It is total, and
   * its reading is the label and colour of the level that the angle's
   * deviation from neutral selects.
   */
  function GetStressLevel(angle: real): (reading: StressReading)
    ensures reading == LevelForDeviation(Abs(angle - NEUTRAL)).Reading()
  {
    if angle > 160.0 || angle < 40.0 then
      StressReading("HIGH", COLOR_DANGER)
    else if angle > 140.0 || angle < 60.0 then
      StressReading("MEDIUM", COLOR_WARN)
    else
      StressReading("LOW", COLOR_SAFE)
  }

  /** The risk level of an angle: the level whose label and colour the classifier returns. */
  function LevelOf(angle: real): (level: StressLevel)
    ensures level.Reading() == GetStressLevel(angle)
  {
    LevelForDeviation(Abs(angle - NEUTRAL))
  }

  /** Every angle falls in exactly one bucket, each with its fixed colour. */
  lemma Buckets(angle: real)
    ensures (GetStressLevel(angle) == StressReading("HIGH", COLOR_DANGER))
            <==> (angle > 160.0 || angle < 40.0)
    ensures (GetStressLevel(angle) == StressReading("MEDIUM", COLOR_WARN))
            <==> (40.0 <= angle < 60.0 || 140.0 < angle <= 160.0)
    ensures (GetStressLevel(angle) == StressReading("LOW", COLOR_SAFE))
            <==> (60.0 <= angle <= 140.0)
    ensures GetStressLevel(angle).name in {"HIGH", "MEDIUM", "LOW"}
  {
  }

  /** The breakpoints are strict: each boundary value falls to the milder side. */
  lemma StrictBreakpoints()
    ensures GetStressLevel(160.0).name == "MEDIUM"
    ensures GetStressLevel(40.0).name == "MEDIUM"
    ensures GetStressLevel(140.0).name == "LOW"
    ensures GetStressLevel(60.0).name == "LOW"
  {
  }

  /** A label is always drawn in the same colour, and no two labels share one. */
  lemma LabelDeterminesColor(angle1: real, angle2: real)
    ensures (GetStressLevel(angle1).name == GetStressLevel(angle2).name)
            <==> (GetStressLevel(angle1).color == GetStressLevel(angle2).color)
  {
    var l1, l2 := LevelOf(angle1), LevelOf(angle2);
    if l1 != l2 {
      assert l1.Label() != l2.Label() by {
        assert l1.Label()[0] != l2.Label()[0];
      }
    }
  }

  /** The buckets are mirror images of each other about the neutral angle. */
  lemma SymmetricAboutNeutral(offset: real)
    ensures GetStressLevel(NEUTRAL + offset) == GetStressLevel(NEUTRAL - offset)
  {
  }

  /** Moving an angle farther from neutral never lowers its risk level. */
  lemma MonotoneInDeviation(angle1: real, angle2: real)
    requires Abs(angle1 - NEUTRAL) <= Abs(angle2 - NEUTRAL)
    ensures LevelOf(angle1).Rank() <= LevelOf(angle2).Rank()
  {
  }

  /** The classifier's sample readings for an elbow. */
  lemma ClassifierExamples()
    ensures GetStressLevel(90.0).name == "LOW"
    ensures GetStressLevel(170.0).name == "HIGH"
    ensures GetStressLevel(30.0).name == "HIGH"
    ensures GetStressLevel(145.0).name == "MEDIUM"
    ensures GetStressLevel(55.0).name == "MEDIUM"
  {
  }

  // ---------------------------------------------------------------------
  // Joint angle
  // ---------------------------------------------------------------------

  /** A landmark position in normalised frame coordinates. */
  datatype Point = Point(x: real, y: real)

  /** The range every two-argument arctangent result lies in. */
  ghost predicate IsArctangent(atan2: (real, real) -> real, pi: real) {
    pi > 0.0 && forall y, x :: -pi <= atan2(y, x) <= pi
  }

  /** x is a whole number of full turns. */
  ghost predicate IsWholeTurns(x: real) {
    x == x.Floor as real && x.Floor % 360 == 0
  }

  /**
   * The reduction of a signed degree difference to an unsigned, non-reflex
   * angle: take the absolute value and replace a reflex result by its
   * complement to a full turn.
   */
  function FoldDegrees(d: real): (angle: real)
    ensures angle <= 180.0
    ensures -360.0 <= d <= 360.0 ==> 0.0 <= angle
  {
    var angle := Abs(d);
    if angle > 180.0 then 360.0 - angle else angle
  }

  /** Folding picks the shorter of the two rotations d describes. */
  lemma FoldIsShorterRotation(d: real)
    requires -360.0 <= d <= 360.0
    ensures FoldDegrees(d) == Min(Abs(d), 360.0 - Abs(d))
  {
  }

  /** Folding only reorients or completes a turn: it is d or -d, up to whole turns. */
  lemma FoldKeepsDirection(d: real)
    requires -360.0 <= d <= 360.0
    ensures IsWholeTurns(FoldDegrees(d) - d) || IsWholeTurns(FoldDegrees(d) + d)
  {
    var angle := FoldDegrees(d);
    if angle == d || angle == -d {
      assert (0.0).Floor == 0;
    } else if d >= 0.0 {
      assert angle + d == 360.0;
      assert (360.0).Floor == 360;
    } else {
      assert angle - d == 360.0;
      assert (360.0).Floor == 360;
    }
  }

  /** Swapping the end points negates the difference, which folding ignores. */
  lemma FoldSymmetric(d: real)
    ensures FoldDegrees(-d) == FoldDegrees(d)
  {
  }

  /** An angle already in [0, 180] is left as it is; so folding twice is folding once. */
  lemma FoldFixesNonReflex(d: real)
    ensures 0.0 <= d <= 180.0 ==> FoldDegrees(d) == d
    ensures -360.0 <= d <= 360.0 ==> FoldDegrees(FoldDegrees(d)) == FoldDegrees(d)
  {
  }

  /**
   * The radians-to-degrees conversion the tracker applies, (r * 180) / pi:
   * the one value that, multiplied by pi, gives r * 180.
   */
  function ToDegrees(radians: real, pi: real): (degrees: real)
    requires pi > 0.0
    ensures degrees * pi == radians * 180.0
  {
    radians * 180.0 / pi
  }

  /** Only one value converts back: any degrees with degrees * pi == radians * 180 is the result. */
  lemma ToDegreesUnique(radians: real, pi: real, degrees: real)
    requires pi > 0.0 && degrees * pi == radians * 180.0
    ensures ToDegrees(radians, pi) == degrees
  {
    var d := ToDegrees(radians, pi);
    assert (d - degrees) * pi == 0.0;
  }

  /** Conversion respects sign: a reversed rotation converts to the negated angle. */
  lemma ToDegreesNegate(radians: real, pi: real)
    requires pi > 0.0
    ensures ToDegrees(-radians, pi) == -ToDegrees(radians, pi)
  {
    var d, e := ToDegrees(radians, pi), ToDegrees(-radians, pi);
    assert (e + d) * pi == 0.0;
  }

  /** Two arctangent results differ by at most a full turn once converted to degrees. */
  lemma ToDegreesBounds(thetaC: real, thetaA: real, pi: real)
    requires pi > 0.0
    requires -pi <= thetaC <= pi && -pi <= thetaA <= pi
    ensures -360.0 <= ToDegrees(thetaC - thetaA, pi) <= 360.0
  {
    var d := ToDegrees(thetaC - thetaA, pi);
    assert -360.0 * pi <= (thetaC - thetaA) * 180.0 <= 360.0 * pi;
    assert (360.0 - d) * pi >= 0.0 && (d + 360.0) * pi >= 0.0;
  }

  /**
   * The included angle at vertex b between the rays to a and to c, in
   * degrees, given the arctangent the tracker calls and the value of pi.
   */
  function CalculateAngle(a: Point, b: Point, c: Point, atan2: (real, real) -> real, pi: real): (angle: real)
    requires IsArctangent(atan2, pi)
    ensures 0.0 <= angle <= 180.0
  {
    var thetaC := atan2(c.y - b.y, c.x - b.x);
    var thetaA := atan2(a.y - b.y, a.x - b.x);
    ToDegreesBounds(thetaC, thetaA, pi);
    FoldDegrees(ToDegrees(thetaC - thetaA, pi))
  }

  /** The included angle does not depend on which end point is named first. */
  lemma CalculateAngleSymmetric(a: Point, b: Point, c: Point, atan2: (real, real) -> real, pi: real)
    requires IsArctangent(atan2, pi)
    ensures CalculateAngle(a, b, c, atan2, pi) == CalculateAngle(c, b, a, atan2, pi)
  {
    var thetaC := atan2(c.y - b.y, c.x - b.x);
    var thetaA := atan2(a.y - b.y, a.x - b.x);
    assert thetaA - thetaC == -(thetaC - thetaA);
    ToDegreesNegate(thetaC - thetaA, pi);
    FoldSymmetric(ToDegrees(thetaC - thetaA, pi));
  }

  /** A right angle and a straight angle, given the arctangent's values on the axes. */
  lemma AngleExamples(atan2: (real, real) -> real, pi: real)
    requires IsArctangent(atan2, pi)
    requires atan2(1.0, 0.0) == pi / 2.0 && atan2(0.0, 1.0) == 0.0 && atan2(0.0, -1.0) == pi
    ensures CalculateAngle(Point(1.0, 0.0), Point(0.0, 0.0), Point(0.0, 1.0), atan2, pi) == 90.0
    ensures CalculateAngle(Point(1.0, 0.0), Point(0.0, 0.0), Point(-1.0, 0.0), atan2, pi) == 180.0
  {
    ToDegreesUnique(pi / 2.0 - 0.0, pi, 90.0);
    ToDegreesUnique(pi - 0.0, pi, 180.0);
  }
}
