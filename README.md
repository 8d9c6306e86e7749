# Drive shaping and soft limits of a competition robot, in Dafny

This project models the driver-control core of a VEX competition robot
(C++ on the PROS runtime): the integer pipeline that turns joystick axes into
drive-motor commands, and the rules that keep an actuator inside software
position bounds.

- `numeric.dfy` (module `Numeric`): C++ arithmetic that Dafny does not have
  natively: integer division truncated toward zero (`TruncDiv`), the
  truncating `double`-to-`int` conversion (`Trunc`, over `real`), `abs`.
- `utility.dfy` (module `Utility`): `src/utility.hpp`: `scale`, `trim`,
  `cubifySpeed`, `calcLeftDrive` / `calcRightDrive`, `deadband`,
  `limitAcceleration`, `limitMotor`.
- `robot.dfy` (module `RobotModel`): the drive part of `src/robot.hpp`: class
  `Robot` with its speed and configuration fields, the constructor's field
  initialisation, `tankDrive`, `arcadeDrive`, both `setDriveSpeed` overloads,
  and `forceLimitMotor`. `Robot::deadband`, `Robot::cubifySpeed`,
  `Robot::limitAcceleration` and `Robot::limitMotor`
  (src/robot.hpp:116-118, 139-181) are line-for-line copies of the
  `utility.hpp` functions, so the class uses the `Utility` functions.

How the C++ is represented:

- `cubifySpeed` is written in the source with `float` `scale` and `pow`. Every
  factor in it is a power of two (1/128 going in, 128 coming out), and a
  clamped stick value cubed is at most 2^21, which fits a `float` mantissa.
  The argument assumes that `pow` returns its result exactly whenever that
  result is representable, which holds for any math library with an error
  below 1 ulp. The float computation is then exact, and equals
  `trunc(trim(v, -128, 128)^3 / 16384)`. `Cubify` is that integer formula.
  `CubifyMatchesScale` proves it equal to the source's composition of `Scale`
  and `Pow3`, computed exactly over `real`.
- The arcade mix `y + x * 0.8` (and `0.85` in `Robot::arcadeDrive`) is a
  `double` converted to `int` on the call to `cubifySpeed(int)`. The model
  uses the exact fractions 4/5 and 17/20 with truncation toward zero
  (`Steer`). `CalcDriveIsRealMix` and `ArcadeTargetIsRealMix` prove this equal to
  truncating the exact real sum with the factors 0.8 and 0.85. Floating
  point does not change that result for any `int` input. As `double`s, 0.8
  and 0.85 lie within a relative 2^-54 of the decimals, so a product that is
  exactly an integer n rounds back to n. Every other exact sum lies at least
  0.05 from an integer, far more than the rounding error of a `double` of
  magnitude below 2^33. The truncated value is therefore that of the exact
  sum.
- A motor write (`mtr = speed`) becomes the returned command for the soft
  limits. In the `Robot` class it becomes a field per drive motor
  (`leftDrive1`, `leftDrive2`, `rightDrive1`, `rightDrive2`) holding the last
  command written to it.
- `arcadeDrive` and `tankDrive` end with the same lines (src/robot.hpp:93-100
  and 106-113): store the targets or one limiter step toward them, then
  `setDriveSpeed(leftSpeed, rightSpeed)`. The model writes those lines once,
  as the method `DriveToward`, and both drive methods call it.
- The position sensor is read twice in `limitMotor` / `forceLimitMotor`. The
  model takes one position snapshot `pos` as a parameter.
- Integers are mathematical; C `int` overflow is not modelled. For joystick
  inputs it cannot happen.

Behaviour of the code that a reader may not expect; the model follows the code:

- `deadband` does not rescale [limit, 128] onto [0, 128]. It subtracts
  `limit * (128 / (128 - limit))` with integer division. The multiplier is 1
  for 0 <= limit < 64, so full deflection gives 128 - limit. It is 2 at
  limit 64: `deadband(64, 64)` is -64. For 64 <= limit < 128 the value at
  the band edge changes sign (`DeadbandWideFlipsSign`).
- For 0 <= limit < 64, `deadband` returns 0 also when |val| equals the
  limit, not only when |val| < limit (`DeadbandNarrow`). For
  64 <= limit < 128 the value at |val| == limit is not 0 but of the opposite
  sign (`DeadbandWideFlipsSign`).
- `deadband` divides by zero when limit is 128 and |val| >= 128. That case
  is excluded by `DeadbandDefined`.
- `limitAcceleration` uses the deceleration limit whenever the target is
  below a positive speed (or above a negative one), however far past zero
  it lies. If `accelLimit <= 0` and target == speed it returns 0, not the
  target. With `deccelLimit == 0` a positive speed that should fall by at
  least `accelLimit` never moves (`LimitAccelerationStalls`); a smaller gap
  is still closed at once.
- The constructor assigns `leftSpeed = 0` twice and never initialises
  `rightSpeed`. The model's constructor leaves `rightSpeed` arbitrary.
- `arcadeDrive` deadbands both axes before mixing. A straight stick of 64
  with deadband 5 therefore gives `cubifySpeed(59)` on both sides, not
  `cubifySpeed(64)` (`DriverCycleExample`).
- `DriverCycleExample` is an example, not a property: a short driver-control
  sequence with the settings of src/main.cpp (deadband 5, acceleration 3,
  deceleration 5) whose assertions show the contracts at work.
- `cubifySpeed(128)` is 128, one above the 127 motor maximum. Joystick
  values stop at 127, and `cubifySpeed(127)` is 125.

## Model

| member | source | states |
|---|---|---|
| `Numeric.Abs` | src/utility.hpp:36 | C's `abs` on the limiter's gap: the result is a natural number equal to x or -x, that is \|x\| (overflow of `abs(INT_MIN)` is listed under "Left out") |
| `Numeric.TruncDiv` | src/utility.hpp:29 | C++ integer division: the magnitude of the quotient is the floor of \|n\|/\|d\|, and its sign is the sign of n/d |
| `Numeric.Trunc` | src/utility.hpp:18 | float-to-int conversion: the magnitude is the floor of \|x\|, and the sign is that of x |
| `Numeric.TruncOfQuotient` | src/utility.hpp:18 | truncating the exact real quotient n/d toward zero, as the double-to-int conversion does, gives C++'s integer quotient |
| `Numeric.TruncDivNeg` | src/utility.hpp:29 | C++ integer division is odd in the dividend: (-n)/d == -(n/d) |
| `Numeric.TruncDivMonotone` | src/utility.hpp:29 | C++ integer division by a positive divisor is monotone in the dividend |
| `Utility.Scale` | src/utility.hpp:4-7 | `scale` maps lowerRange to lowerScale and upperRange to upperScale; its two power-of-two uses are pinned exactly by the next two rows |
| `Utility.ScaleToUnit` | src/utility.hpp:4-14 | the inner `scale(t, -128, 128, -1, 1)` of cubifySpeed is t/128 |
| `Utility.ScaleFromUnit` | src/utility.hpp:4-14 | the outer `scale(c, -1, 1, -128, 128)` of cubifySpeed is 128·c |
| `Utility.Pow3` | src/utility.hpp:14 | `pow(x, 3)`; its value at t/128 is given by `Utility.Pow3OfUnit` |
| `Utility.Pow3OfUnit` | src/utility.hpp:14 | pow(t/128, 3) is t^3 / 2^21 exactly |
| `Utility.Trim` | src/utility.hpp:9-11 | the result lies in [lower, upper] when lower <= upper; a value already inside is returned unchanged; below the range gives lower, above it gives upper |
| `Utility.TrimIdempotent` | src/utility.hpp:9-11 | clamping twice is clamping once |
| `Utility.TrimMonotone` | src/utility.hpp:9-11 | clamping is monotone |
| `Utility.TrimNeg` | src/utility.hpp:9-11 | clamping to a symmetric range commutes with negation |
| `Utility.CubeQuotientShrinks` | src/utility.hpp:13-15 | on [-128, 128], t^3/16384 truncated never exceeds \|t\| |
| `Utility.Cubify` | src/utility.hpp:13-15 | the curve lies in [-128, 128], never exceeds the clamped input in magnitude, keeps its sign, and saturates to ±128 at and beyond ±128 |
| `Utility.CubifyMatchesScale` | src/utility.hpp:4-15 | the integer curve equals the source's scale/pow/scale composition evaluated exactly, then truncated |
| `Utility.CubifyOdd` | src/utility.hpp:13-15 | cubifySpeed(-v) == -cubifySpeed(v) |
| `Utility.CubifyMonotone` | src/utility.hpp:13-15 | the curve is monotone non-decreasing over all ints |
| `Utility.CubifyZeroZone` | src/utility.hpp:13-15 | the curve is 0 exactly when -25 <= v <= 25 (both directions) |
| `Utility.Steer` | src/utility.hpp:17-23 | the mixed axis `y ± x * k` converted to int with the factor k = num/den exact; its meaning is fixed by `Utility.SteerOfSpeed`, `Utility.SteerOdd`, `Utility.SteerMonotone` and `Utility.CalcDriveIsRealMix` |
| `Utility.SteerOfSpeed` | src/utility.hpp:17-23 | with no direction the mixed axis is the speed itself |
| `Utility.SteerOdd` | src/utility.hpp:17-23 | negating both axes negates the mixed axis |
| `Utility.SteerMonotone` | src/utility.hpp:17-23 | with a non-negative factor the mixed axis is monotone in both axes |
| `Utility.MixLeft` | src/utility.hpp:17-19 | the left side of a mix, cubifySpeed of speed + direction·k, lies on [-128, 128] |
| `Utility.MixRight` | src/utility.hpp:21-23 | the right side of a mix, cubifySpeed of speed - direction·k, lies on [-128, 128] |
| `Utility.CalcLeftDrive` | src/utility.hpp:17-19 | calcLeftDrive lies on [-128, 128]; its value is pinned by `Utility.CalcDriveIsRealMix` and its symmetries by `Utility.CalcDriveSymmetry` |
| `Utility.CalcRightDrive` | src/utility.hpp:21-23 | calcRightDrive lies on [-128, 128]; its value is pinned by `Utility.CalcDriveIsRealMix` and its symmetries by `Utility.CalcDriveSymmetry` |
| `Utility.CalcDriveIsRealMix` | src/utility.hpp:17-23 | the fraction 4/5 gives the same result as truncating y ± x·0.8 computed exactly |
| `Utility.CalcDriveSymmetry` | src/utility.hpp:17-23 | left(y,0) == right(y,0) == cubifySpeed(y); left(0,x) == -right(0,x); left is odd; right(y,x) == left(y,-x); x >= 0 gives left >= right; output on [-128,128] |
| `Utility.MixStraight` | src/utility.hpp:17-23 | with no direction both sides are cubifySpeed(speed), for any factor |
| `Utility.MixSpin` | src/utility.hpp:17-23 | with no speed the two sides are opposite, for any factor |
| `Utility.MixMirror` | src/utility.hpp:21-23 | the right side is the left side with the direction negated |
| `Utility.MixOdd` | src/utility.hpp:17-23 | negating both axes negates both sides |
| `Utility.MixMonotoneInSpeed` | src/utility.hpp:17-23 | more speed never lowers either side (non-negative factor) |
| `Utility.MixTurnOrder` | src/utility.hpp:17-23 | a non-negative direction puts left >= right, a non-positive one left <= right |
| `Utility.Deadband` | src/utility.hpp:25-33 | a stick value strictly inside (-limit, limit) gives 0; what happens outside the band is stated by the lemmas below |
| `Utility.DeadbandOdd` | src/utility.hpp:25-33 | deadband(-v, l) == -deadband(v, l) for every limit where it is defined |
| `Utility.DeadbandMultiplier` | src/utility.hpp:29 | the integer factor 128/(128-limit) is at least 1 for 0 <= limit < 128 and at most 0 above 128 |
| `Utility.DeadbandMultiplierZero` | src/utility.hpp:29 | for a negative limit the factor is 0 |
| `Utility.DeadbandMultiplierWide` | src/utility.hpp:29 | for 64 <= limit < 128 the factor is at least 2 |
| `Utility.DeadbandMultiplierOne` | src/utility.hpp:29 | the integer multiplier 128/(128-limit) is 1 for 0 <= limit < 64 |
| `Utility.DeadbandNarrow` | src/utility.hpp:25-33 | for 0 <= limit < 64: the result is 0 exactly on [-limit, limit]; outside it the magnitude drops by exactly limit; the sign is kept and the magnitude never grows |
| `Utility.DeadbandMonotone` | src/utility.hpp:25-33 | for 0 <= limit < 64 the deadband is monotone non-decreasing |
| `Utility.DeadbandWideFlipsSign` | src/utility.hpp:25-33 | for 64 <= limit < 128 the band edge ±limit maps to a value of the opposite sign, of magnitude at least limit |
| `Utility.LimitAcceleration` | src/utility.hpp:35-59 | a gap below accelLimit snaps to target; with accelLimit <= 0 and target == speed the result is 0; the result is target, speed ± accelLimit, speed ± deccelLimit or that 0; with accelLimit > 0 and deccelLimit >= 0 it lies between speed and target and moves at most max(accelLimit, deccelLimit) |
| `Utility.LimitAccelerationRates` | src/utility.hpp:40-56 | for a step that does not snap: when the magnitude falls the step is min(gap, deccelLimit), otherwise exactly accelLimit |
| `Utility.LimitAccelerationProgress` | src/utility.hpp:35-56 | with both limits positive each step strictly closes the gap to the target |
| `Utility.LimitAccelerationInRange` | src/utility.hpp:35-59 | with accelLimit > 0 and deccelLimit >= 0, a step from a speed on a closed range toward a target on it stays on that range |
| `Utility.LimitAccelerationStalls` | src/utility.hpp:40-45 | with deccelLimit 0 a positive speed that should fall by at least accelLimit stays where it is |
| `Utility.ApproachReachesTarget` | src/utility.hpp:35-59 | with both limits positive, repeating the limiter for \|target - speed\| cycles or more reaches the target and stays there |
| `Utility.LimitMotor` | src/utility.hpp:61-67 | the command is 0 or speed; at or below lower it is never negative; at or above upper it is never positive; motion away from a bound passes unchanged (same rule at src/robot.hpp:175-181) |
| `Utility.LimitMotorIdempotent` | src/utility.hpp:61-67 | applying the hard stop to its own output changes nothing |
| `RobotModel.TicksPerFoot` | src/robot.hpp:78 | the constructor's ticksPerFoot expression, with the integer `900 * 3/5` and the truncating conversion; its value is `RobotModel.TicksPerFootValue` |
| `RobotModel.TicksPerFootValue` | src/robot.hpp:78 | the constructor's ticksPerFoot, (900·3/5)/((3.1415·3.25)/12) truncated, is 634 |
| `RobotModel.ForceLimitMotor` | src/robot.hpp:183-191 | at or below lower with a non-upward request the command is +correctionSpeed; otherwise at or above upper with a non-downward request it is -correctionSpeed; strictly inside, or moving back inside, the request passes; the command is always one of these three |
| `RobotModel.ForceLimitMotorSafe` | src/robot.hpp:183-191 | with lower < upper and correctionSpeed >= 0, a motor at or below lower is never driven down and one at or above upper is never driven up |
| `RobotModel.ForceLimitWithoutCorrection` | src/robot.hpp:183-191 | with correctionSpeed 0 the force-correct policy gives exactly the hard-stop command |
| `RobotModel.ArcadeLeftTarget` | src/robot.hpp:89-91 | the left arcade target, cubifySpeed of the deadbanded speed + direction·0.85, lies on [-128, 128] |
| `RobotModel.ArcadeRightTarget` | src/robot.hpp:89-92 | the right arcade target, cubifySpeed of the deadbanded speed - direction·0.85, lies on [-128, 128] |
| `RobotModel.ArcadeSteerIsReal` | src/robot.hpp:91-92 | the mixed axis with 17/20 equals truncating s ± d·0.85 computed exactly |
| `RobotModel.ArcadeMixIsReal` | src/robot.hpp:91-92 | the curved arcade sides with 17/20 equal cubifySpeed of the truncated exact s ± d·0.85 |
| `RobotModel.ArcadeTargetIsRealMix` | src/robot.hpp:88-92 | the arcade targets with 17/20 equal the curve of the deadbanded speed ± direction·0.85 computed exactly and truncated |
| `RobotModel.ArcadeTargetSymmetry` | src/robot.hpp:88-92 | if direction deadbands to 0, left and right targets are equal (cubifySpeed(deadband(speed))); if speed deadbands to 0, left == -right; both targets lie on [-128,128]; for a band below 64 a non-negative direction puts left >= right |
| `RobotModel.Robot.constructor` | src/robot.hpp:73-78 | leftSpeed is 0; maxAccel, maxDecel and joyDeadband are the arguments; ticksPerFoot is the computed constant; rightSpeed is left arbitrary |
| `RobotModel.Robot.SetDriveSpeed` | src/robot.hpp:120-125 | all four drive motors get speed; only the motor fields change |
| `RobotModel.Robot.SetDriveSpeeds` | src/robot.hpp:127-132 | both left motors get left and both right motors get right; only the motor fields change |
| `RobotModel.Robot.DriveToward` | src/robot.hpp:93-100 | the common tail of both drives (the same lines are src/robot.hpp:106-113 in tankDrive): each side speed becomes its target under noLimit or one limiter step toward it otherwise; the motors get the new speeds; with sane limits each side moves toward its target by at most max(maxAccel, maxDecel); speeds and targets on [-128, 128] keep the speeds there; only leftSpeed, rightSpeed and the motors change |
| `RobotModel.Robot.TankDrive` | src/robot.hpp:103-114 | each stored side speed becomes the deadbanded stick under noLimit (no curve), or one limiter step from its old value otherwise; the motors get the stored speeds; with sane limits each side moves toward its target by at most max(maxAccel, maxDecel); range [-128,128] is kept for sticks on it and bands below 64; only leftSpeed, rightSpeed and the motors change |
| `RobotModel.Robot.ArcadeDrive` | src/robot.hpp:88-101 | each stored side speed becomes its arcade target under noLimit, or one limiter step toward it otherwise; the motors get the stored speeds; with sane limits each side moves toward its target by at most max(maxAccel, maxDecel); range [-128,128] is kept; only leftSpeed, rightSpeed and the motors change |

## Left out

- `Robot::turn` (src/robot.hpp:219-292): a two-phase floating-point PID that polls the IMU inside delay loops. It also reads `prevError` before assigning it. Sensor feedback, float gains and unbounded loops are outside this model.
- `Robot::drive` (src/robot.hpp:193-217): a blocking loop over encoder and IMU readings. Its distance average adds `right_drive1` twice and never `right_drive2` (src/robot.hpp:208-209).
- `Robot::initialize` and the hardware part of the constructor (src/robot.hpp:46-71, 81-86): brake modes, encoder tare and IMU calibration are hardware calls. The motors' initial commands are left arbitrary.
- `Robot::setIntakeSpeed` (src/robot.hpp:134-137): intake motors are not part of the drive model.
- All of src/main.cpp: LCD callbacks, the timed autonomous routine, and the opcontrol polling loop. Its drive update re-uses the functions modelled here with deadband 5, acceleration 3 and deceleration 5; those numbers appear in `DriverCycleExample`. The motor polarity inversion it applies to the right side is wiring.
- `scale` with arbitrary arguments, such as the tray speed ramp in src/main.cpp: `Scale` is defined over exact reals, and only its power-of-two use inside `cubifySpeed` is modelled. That the float steps of that use are exact is argued above, not proved in Dafny.
- The floating-point argument above, that the `double` arcade mix truncates to the exact-fraction value, is stated here and not proved in Dafny: the model has no `double` type.
- C `int` overflow and wrap-around, including `abs(INT_MIN)`: all integers are unbounded.
- Motor objects, ports and the sensor read itself: the soft limits take one position snapshot.
- src/ contains no velocity-profile function, so none is modelled.
- `RobotModel.Robot.TankDrive`: its range guarantee is stated only for deadband limits in [0, 64). For wider bands the source's deadband can leave the stick range.
