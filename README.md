# Joint stress tracker: verified model of the angle and classifier core

`JointStressTracker` watches one arm through a camera, measures the angle at
the elbow from the shoulder, elbow and wrist landmarks, and labels that angle
HIGH, MEDIUM or LOW stress, drawing the label in red, yellow or green. This
project models the two pieces of that program that compute something, in one
Dafny module, `JointTracker` (`joint_tracker.dfy`):

- **Stress classifier** (`get_stress_level`). `GetStressLevel` is the
  if/elif/else chain with its strict `>`/`<` comparisons against 160/40 and
  140/60. It returns the label string and the BGR colour constant. The meaning
  of the chain is stated against an independent definition,
  `LevelForDeviation`. That definition grades the distance of the angle from
  the neutral 100 degrees: more than 60 is HIGH, more than 40 is MEDIUM, and
  anything else is LOW. The lemmas give the buckets, the strict breakpoints,
  the fixed pairing of label and colour, the mirror symmetry about 100 degrees
  and monotonicity in the deviation.
- **Joint angle** (`calculate_angle`). The two arctangent calls and `np.pi`
  are parameters. `atan2` is any function whose results lie in [-pi, pi], and
  `pi` is any positive real. `ToDegrees` is the `* 180.0 / np.pi` conversion
  and `FoldDegrees` is the absolute value followed by the `360 - angle` fold.
  `CalculateAngle` composes them and always lands in [0, 180]. Swapping the
  two end points does not change its result.

All arithmetic is over exact `real`s.

The docstring of `get_stress_level` (joint_tracker.py:42) speaks of
"< 50 or > 150" as high stress. The code compares against 40 and 160, and the
model follows the code.

## Model

| member | source | states |
|---|---|---|
| `JointTracker.GetStressLevel` | joint_tracker.py:37-49 | Total on every real angle. The reading is the label and colour of the level chosen by the angle's deviation from 100 degrees: more than 60 gives HIGH, more than 40 gives MEDIUM, otherwise LOW. |
| `JointTracker.LevelForDeviation` | joint_tracker.py:44-49 | The reference grading by deviation: HIGH exactly when the deviation exceeds 60, LOW exactly when it is at most 40, MEDIUM otherwise. |
| `JointTracker.LevelOf` | joint_tracker.py:37-49 | The risk level of an angle, whose label and colour are exactly what the classifier returns. |
| `JointTracker.Buckets` | joint_tracker.py:16-49 | Angle > 160 or < 40 gives ("HIGH", (0,0,255)). Angle in [40,60) or (140,160] gives ("MEDIUM", (0,255,255)). Angle in [60,140] gives ("LOW", (0,255,0)). Each is an if-and-only-if, and every label is one of the three. |
| `JointTracker.StrictBreakpoints` | joint_tracker.py:44-47 | Exactly 160 and 40 give MEDIUM. Exactly 140 and 60 give LOW. |
| `JointTracker.LabelDeterminesColor` | joint_tracker.py:44-49 | For any two angles, the labels agree if and only if the colours agree. |
| `JointTracker.SymmetricAboutNeutral` | joint_tracker.py:44-49 | 100 + x and 100 - x get the same reading. |
| `JointTracker.MonotoneInDeviation` | joint_tracker.py:39-49 | An angle at least as far from 100 as another has at least as high a risk level. |
| `JointTracker.ClassifierExamples` | joint_tracker.py:44-49 | 90 is LOW, 170 and 30 are HIGH, 145 and 55 are MEDIUM. |
| `JointTracker.FoldDegrees` | joint_tracker.py:30-33 | The folded angle never exceeds 180. It is non-negative whenever the signed difference lies in [-360, 360]. |
| `JointTracker.FoldIsShorterRotation` | joint_tracker.py:30-33 | For a difference d in [-360, 360], the fold is min(abs(d), 360 - abs(d)), the shorter of the two rotations. |
| `JointTracker.FoldKeepsDirection` | joint_tracker.py:30-33 | For d in [-360, 360], the fold differs from d or from -d by a whole number of full turns. It describes the same pair of rays. |
| `JointTracker.FoldSymmetric` | joint_tracker.py:30-33 | d and -d fold to the same angle. |
| `JointTracker.FoldFixesNonReflex` | joint_tracker.py:32-33 | A value already in [0, 180] is left unchanged. Folding twice equals folding once. |
| `JointTracker.ToDegrees` | joint_tracker.py:30 | The converted value times pi equals radians times 180. |
| `JointTracker.ToDegreesUnique` | joint_tracker.py:30 | Any value whose product with pi is radians times 180 is the converted value. |
| `JointTracker.ToDegreesNegate` | joint_tracker.py:29-30 | Converting a negated radian difference gives the negated degree difference. |
| `JointTracker.ToDegreesBounds` | joint_tracker.py:29-30 | The difference of two arctangent results in [-pi, pi], converted to degrees, lies in [-360, 360]. |
| `JointTracker.CalculateAngle` | joint_tracker.py:20-35 | For any arctangent with results in [-pi, pi], the included angle at the vertex lies in [0, 180]. |
| `JointTracker.CalculateAngleSymmetric` | joint_tracker.py:29-35 | Swapping the first and last point does not change the angle. |
| `JointTracker.AngleExamples` | joint_tracker.py:20-35 | A = (1,0), B = (0,0), C = (0,1) gives 90. A = (1,0), B = (0,0), C = (-1,0) gives 180. Both assume only the arctangent's values on the axes. |

## Left out

- `run` (camera capture, pose detection, colour conversion, drawing, the display window and the `q` key) is left out. It consists of calls into OpenCV and MediaPipe.
- Landmark extraction and the catch-all `except Exception: pass` that skips a frame are left out. They are library data access and error suppression with no stated result.
- `np.arctan2` and `np.pi` are not computed. They are parameters constrained only by the range [-pi, pi] and by pi > 0. The range is closed because numpy returns -pi for a negative-zero ordinate.
- JointTracker.CalculateAngle: works over exact reals. It does not model floating-point rounding in the subtraction, the conversion or the fold.
- The pixel placement of the angle text (`np.multiply(elbow, [w, h]).astype(int)`) and the `int(angle)` shown on screen are left out. They are rendering details.
- The MediaPipe confidence settings in `__init__` are left out. They configure the external estimator.
