/** The joystick-shaping and actuator helpers of utility.hpp: clamping, the
    cubic response curve, the arcade mix, the deadband, the acceleration
    limiter and the hard-stop soft limit.  Floating-point steps are written
    over `real`; the README explains why that is exact where it is used. */
module Utility {
  import opened Numeric

  /** Full joystick deflection: the curve maps [-StickRange, StickRange] onto itself. */
  const StickRange: int := 128

  /** 128^3 / 128: the divisor of the integer form of the cubic curve. */
  const CubeDivisor: int := 16384

  /** The turn-authority factor of calcLeftDrive / calcRightDrive, 0.8 = 4/5. */
  const CalcTurnFactor: real := 0.8

  // ---------------------------------------------------------------------
  // scale and trim
  // ---------------------------------------------------------------------

  /** Linear map of [lowerRange, upperRange] onto [lowerScale, upperScale]. */
  function Scale(val: real, lowerRange: real, upperRange: real, lowerScale: real, upperScale: real): (r: real)
    requires upperRange != lowerRange
    ensures val == lowerRange ==> r == lowerScale
    ensures val == upperRange ==> r == upperScale
  {
    var slope := (upperScale - lowerScale) / (upperRange - lowerRange);
    val * slope + (lowerScale - slope * lowerRange)
  }

  /** The inner scale of cubifySpeed: divide by 128. */
  lemma ScaleToUnit(t: int)
    ensures Scale(t as real, -128.0, 128.0, -1.0, 1.0) == t as real / 128.0
  {
  }

  /** The outer scale of cubifySpeed: multiply by 128. */
  lemma ScaleFromUnit(c: real)
    ensures Scale(c, -1.0, 1.0, -128.0, 128.0) == c * 128.0
  {
  }

  lemma Pow3OfUnit(t: int)
    ensures Pow3(t as real / 128.0) == Cube(t) as real / 2097152.0
  {
    var x := t as real / 128.0;
    assert t as real == x * 128.0;
    assert Cube(t) as real == t as real * t as real * t as real;
    assert t as real * t as real * t as real == (x * x * x) * 2097152.0;
  }

  /** Clamp val to [lower, upper]. */
  function Trim(val: int, lower: int, upper: int): (r: int)
    ensures lower <= upper ==> lower <= r <= upper
    ensures lower <= val <= upper ==> r == val
    ensures lower <= upper && val < lower ==> r == lower
    ensures lower <= upper && val > upper ==> r == upper
  {
    if val > upper then upper else if val < lower then lower else val
  }

  lemma TrimIdempotent(val: int, lower: int, upper: int)
    requires lower <= upper
    ensures Trim(Trim(val, lower, upper), lower, upper) == Trim(val, lower, upper)
  {
  }

  lemma TrimMonotone(a: int, b: int, lower: int, upper: int)
    requires a <= b && lower <= upper
    ensures Trim(a, lower, upper) <= Trim(b, lower, upper)
  {
  }

  // ---------------------------------------------------------------------
  // cubifySpeed
  // ---------------------------------------------------------------------

  /** `pow(x, 3)`. */
  function Pow3(x: real): real
  {
    x * x * x
  }

  /** The cubic response curve: the clamped stick value cubed and brought
      back to the stick range, truncated toward zero. */
  function Cubify(val: int): (r: int)
    ensures -StickRange <= r <= StickRange
    ensures Abs(r) <= Abs(Trim(val, -StickRange, StickRange))
    ensures r == 0 || ((r < 0) <==> (val < 0))
    ensures val >= StickRange ==> r == StickRange
    ensures val <= -StickRange ==> r == -StickRange
  {
    var t := Trim(val, -StickRange, StickRange);
    CubeQuotientShrinks(t);
    CubeSign(t);
    TruncDiv(Cube(t), CubeDivisor)
  }

  /** On the stick range, t^3 / 128^2 never exceeds t in magnitude. */
  lemma CubeQuotientShrinks(t: int)
    requires -StickRange <= t <= StickRange
    ensures Abs(TruncDiv(Cube(t), CubeDivisor)) <= Abs(t)
  {
    var u := Abs(t);
    MulMonotone(u, StickRange, u);
    MulMonotone(u * u, CubeDivisor, u);
    assert Cube(u) <= CubeDivisor * u;
    assert Abs(Cube(t)) == Cube(u);
  }

  /** The float composition of the source, computed exactly, equals the
      integer form: every scale factor in it is a power of two. */
  lemma CubifyMatchesScale(val: int)
    ensures Cubify(val) == Trunc(Scale(Pow3(Scale(Trim(val, -StickRange, StickRange) as real, -128.0, 128.0, -1.0, 1.0)), -1.0, 1.0, -128.0, 128.0))
  {
    var t := Trim(val, -StickRange, StickRange);
    ScaleToUnit(t);
    Pow3OfUnit(t);
    var c := Cube(t) as real / 2097152.0;
    ScaleFromUnit(c);
    assert c * 128.0 == Cube(t) as real / CubeDivisor as real;
    TruncOfQuotient(Cube(t), CubeDivisor);
  }

  lemma TrimNeg(val: int, m: int)
    requires 0 <= m
    ensures Trim(-val, -m, m) == -Trim(val, -m, m)
  {
  }

  /** The curve is odd. */
  lemma CubifyOdd(val: int)
    ensures Cubify(-val) == -Cubify(val)
  {
    var t := Trim(val, -StickRange, StickRange);
    TrimNeg(val, StickRange);
    assert Cube(-t) == -Cube(t);
    TruncDivNeg(Cube(t), CubeDivisor);
  }

  /** The curve is monotone non-decreasing over all ints. */
  lemma CubifyMonotone(a: int, b: int)
    requires a <= b
    ensures Cubify(a) <= Cubify(b)
  {
    TrimMonotone(a, b, -StickRange, StickRange);
    CubeMonotone(Trim(a, -StickRange, StickRange), Trim(b, -StickRange, StickRange));
    TruncDivMonotone(Cube(Trim(a, -StickRange, StickRange)), Cube(Trim(b, -StickRange, StickRange)), CubeDivisor);
  }

  /** The curve has its own dead zone: it outputs 0 exactly for |val| <= 25. */
  lemma CubifyZeroZone(val: int)
    ensures Cubify(val) == 0 <==> -25 <= val <= 25
  {
    if 26 <= val {
      CubifyMonotone(26, val);
      assert Cubify(26) == 1;
    } else if val <= -26 {
      CubifyMonotone(val, -26);
      assert Cubify(-26) == -1;
    } else {
      CubeMonotone(val, 25);
      CubeMonotone(-25, val);
      assert Cube(25) == 15625;
    }
  }

  // ---------------------------------------------------------------------
  // calcLeftDrive / calcRightDrive
  // ---------------------------------------------------------------------

  /** speed + direction * (num / den), converted to int by truncation toward
      zero: the C++ expression `y + (x * 0.8)` passed to an int parameter,
      with the factor written as an exact fraction. */
  function Steer(speed: int, direction: int, num: int, den: int): int
    requires den > 0
  {
    TruncDiv(den * speed + num * direction, den)
  }

  /** Left side of the arcade mix: the curve applied to speed + direction * k. */
  function MixLeft(speed: int, direction: int, num: int, den: int): (r: int)
    requires den > 0
    ensures -StickRange <= r <= StickRange
  {
    Cubify(Steer(speed, direction, num, den))
  }

  /** Right side of the arcade mix: the curve applied to speed - direction * k. */
  function MixRight(speed: int, direction: int, num: int, den: int): (r: int)
    requires den > 0
    ensures -StickRange <= r <= StickRange
  {
    Cubify(Steer(speed, -direction, num, den))
  }

  /** calcLeftDrive: the curve of y + x * 0.8. */
  function CalcLeftDrive(y: int, x: int): (r: int)
    ensures -StickRange <= r <= StickRange
  {
    MixLeft(y, x, 4, 5)
  }

  /** calcRightDrive: the curve of y - x * 0.8. */
  function CalcRightDrive(y: int, x: int): (r: int)
    ensures -StickRange <= r <= StickRange
  {
    MixRight(y, x, 4, 5)
  }

  /** With the factor written as the real 0.8, calcLeftDrive / calcRightDrive
      are the curve of the truncated real sum and difference, as in the source. */
  lemma CalcDriveIsRealMix(y: int, x: int)
    ensures CalcLeftDrive(y, x) == Cubify(Trunc(y as real + x as real * CalcTurnFactor))
    ensures CalcRightDrive(y, x) == Cubify(Trunc(y as real - x as real * CalcTurnFactor))
  {
    assert y as real + x as real * CalcTurnFactor == (5 * y + 4 * x) as real / 5 as real;
    assert y as real - x as real * CalcTurnFactor == (5 * y + 4 * -x) as real / 5 as real;
    TruncOfQuotient(5 * y + 4 * x, 5);
    TruncOfQuotient(5 * y + 4 * -x, 5);
  }

  /** With no direction both sides get the curve of the speed. */
  lemma MixStraight(speed: int, num: int, den: int)
    requires den > 0
    ensures MixLeft(speed, 0, num, den) == Cubify(speed)
    ensures MixRight(speed, 0, num, den) == Cubify(speed)
  {
    SteerOfSpeed(speed, num, den);
  }

  lemma SteerOfSpeed(speed: int, num: int, den: int)
    requires den > 0
    ensures Steer(speed, 0, num, den) == speed
  {
    var q := Steer(speed, 0, num, den);
    var u := Abs(speed);
    assert Abs(den * speed) == den * u;
    assert Abs(q) * den <= u * den < (Abs(q) + 1) * den;
    MulOrder(u + 1, Abs(q), den);
    MulOrder(Abs(q) + 1, u, den);
  }

  /** Steering is odd in the two stick axes together. */
  lemma SteerOdd(speed: int, direction: int, num: int, den: int)
    requires den > 0
    ensures Steer(-speed, -direction, num, den) == -Steer(speed, direction, num, den)
  {
    NegMul(den, speed);
    NegMul(num, direction);
    TruncDivNeg(den * speed + num * direction, den);
  }

  /** Steering is monotone in the speed, and in the direction when k >= 0. */
  lemma SteerMonotone(s1: int, s2: int, d1: int, d2: int, num: int, den: int)
    requires den > 0 && 0 <= num && s1 <= s2 && d1 <= d2
    ensures Steer(s1, d1, num, den) <= Steer(s2, d2, num, den)
  {
    MulMonotone(s1, s2, den);
    MulMonotone(d1, d2, num);
    TruncDivMonotone(den * s1 + num * d1, den * s2 + num * d2, den);
  }

  lemma NegMul(a: int, b: int)
    ensures a * -b == -(a * b)
  {
  }

  /** With no speed the two sides turn in opposite directions. */
  lemma MixSpin(direction: int, num: int, den: int)
    requires den > 0
    ensures MixLeft(0, direction, num, den) == -MixRight(0, direction, num, den)
  {
    SteerOdd(0, direction, num, den);
    CubifyOdd(Steer(0, direction, num, den));
  }

  /** The right side is the left side with the direction reversed. */
  lemma MixMirror(speed: int, direction: int, num: int, den: int)
    requires den > 0
    ensures MixRight(speed, direction, num, den) == MixLeft(speed, -direction, num, den)
  {
  }

  /** Reversing both stick axes reverses both outputs. */
  lemma MixOdd(speed: int, direction: int, num: int, den: int)
    requires den > 0
    ensures MixLeft(-speed, -direction, num, den) == -MixLeft(speed, direction, num, den)
    ensures MixRight(-speed, -direction, num, den) == -MixRight(speed, direction, num, den)
  {
    SteerOdd(speed, direction, num, den);
    SteerOdd(speed, -direction, num, den);
    CubifyOdd(Steer(speed, direction, num, den));
    CubifyOdd(Steer(speed, -direction, num, den));
  }

  /** More speed never lowers either side. */
  lemma MixMonotoneInSpeed(s1: int, s2: int, direction: int, num: int, den: int)
    requires den > 0 && 0 <= num && s1 <= s2
    ensures MixLeft(s1, direction, num, den) <= MixLeft(s2, direction, num, den)
    ensures MixRight(s1, direction, num, den) <= MixRight(s2, direction, num, den)
  {
    SteerMonotone(s1, s2, direction, direction, num, den);
    SteerMonotone(s1, s2, -direction, -direction, num, den);
    CubifyMonotone(Steer(s1, direction, num, den), Steer(s2, direction, num, den));
    CubifyMonotone(Steer(s1, -direction, num, den), Steer(s2, -direction, num, den));
  }

  /** With a non-negative factor, a positive direction turns right (the left
      side is at least the right side) and a negative one turns left. */
  lemma MixTurnOrder(speed: int, direction: int, num: int, den: int)
    requires den > 0 && 0 <= num
    ensures direction >= 0 ==> MixLeft(speed, direction, num, den) >= MixRight(speed, direction, num, den)
    ensures direction <= 0 ==> MixLeft(speed, direction, num, den) <= MixRight(speed, direction, num, den)
  {
    if direction >= 0 {
      SteerMonotone(speed, speed, -direction, direction, num, den);
      CubifyMonotone(Steer(speed, -direction, num, den), Steer(speed, direction, num, den));
    } else {
      SteerMonotone(speed, speed, direction, -direction, num, den);
      CubifyMonotone(Steer(speed, direction, num, den), Steer(speed, -direction, num, den));
    }
  }

  /** The symmetries of calcLeftDrive / calcRightDrive. */
  lemma CalcDriveSymmetry(y: int, x: int)
    ensures CalcLeftDrive(y, 0) == CalcRightDrive(y, 0) == Cubify(y)
    ensures CalcLeftDrive(0, x) == -CalcRightDrive(0, x)
    ensures CalcLeftDrive(-y, -x) == -CalcLeftDrive(y, x)
    ensures CalcRightDrive(y, x) == CalcLeftDrive(y, -x)
    ensures x >= 0 ==> CalcLeftDrive(y, x) >= CalcRightDrive(y, x)
    ensures -StickRange <= CalcLeftDrive(y, x) <= StickRange
  {
    MixStraight(y, 4, 5);
    MixSpin(x, 4, 5);
    MixOdd(y, x, 4, 5);
    MixMirror(y, x, 4, 5);
    MixTurnOrder(y, x, 4, 5);
  }

  // ---------------------------------------------------------------------
  // deadband
  // ---------------------------------------------------------------------

  /** The source divides by 128 - limit once val is outside the band; with
      limit == 128 that is a division by zero.  Joystick values are within
      [-127, 127], so for them the division is never reached. */
  predicate DeadbandDefined(val: int, limit: int)
  {
    limit == 128 ==> -128 < val < 128
  }

  /** The integer multiplier 128 / (128 - limit) of the source. */
  function DeadbandMultiplier(limit: int): (m: int)
    requires limit != 128
    ensures 0 <= limit < 128 ==> m >= 1
    ensures limit > 128 ==> m <= 0
  {
    MulOrder(TruncDiv(128, 128 - limit) + 1, 1, if limit < 128 then 128 - limit else 1);
    TruncDiv(128, 128 - limit)
  }

  /** Zero inside the band; outside it, val moved toward zero by
      limit * (128 / (128 - limit)). */
  function Deadband(val: int, limit: int): (r: int)
    requires DeadbandDefined(val, limit)
    ensures -limit < val < limit ==> r == 0
  {
    if val >= limit || val <= -limit then
      val + (if val >= limit then -limit else limit) * DeadbandMultiplier(limit)
    else
      0
  }

  /** The deadband is odd, for every limit where it is defined. */
  lemma DeadbandOdd(val: int, limit: int)
    requires DeadbandDefined(val, limit)
    ensures DeadbandDefined(-val, limit)
    ensures Deadband(-val, limit) == -Deadband(val, limit)
  {
    if limit < 0 {
      DeadbandMultiplierZero(limit);
    } else if limit != 128 {
      var m := DeadbandMultiplier(limit);
      assert (-limit) * m == -(limit * m);
    }
  }

  lemma DeadbandMultiplierZero(limit: int)
    requires limit < 0
    ensures DeadbandMultiplier(limit) == 0
  {
  }

  /** For a band narrower than 64 the multiplier is 1. */
  lemma DeadbandMultiplierOne(limit: int)
    requires 0 <= limit < 64
    ensures DeadbandMultiplier(limit) == 1
  {
    var d := 128 - limit;
    var q := TruncDiv(128, d);
    assert q * d <= 128 < (q + 1) * d;
    MulOrder(2, q, d);
    MulOrder(q + 1, 1, d);
  }

  /** For a band of 64 or wider (and below 128) the multiplier is at least 2. */
  lemma DeadbandMultiplierWide(limit: int)
    requires 64 <= limit < 128
    ensures DeadbandMultiplier(limit) >= 2
  {
    var d := 128 - limit;
    var q := TruncDiv(128, d);
    assert 128 < (q + 1) * d;
    MulOrder(q + 1, 2, d);
  }

  /** With 0 <= limit < 64 the deadband is zero exactly on [-limit, limit],
      subtracts limit from the magnitude outside it and never flips the sign. */
  lemma DeadbandNarrow(val: int, limit: int)
    requires 0 <= limit < 64
    ensures Deadband(val, limit) == 0 <==> -limit <= val <= limit
    ensures Abs(val) >= limit ==> Abs(Deadband(val, limit)) == Abs(val) - limit
    ensures val >= 0 ==> 0 <= Deadband(val, limit) <= val
    ensures val <= 0 ==> val <= Deadband(val, limit) <= 0
  {
    DeadbandMultiplierOne(limit);
  }

  /** With 0 <= limit < 64 the deadband is monotone non-decreasing. */
  lemma DeadbandMonotone(a: int, b: int, limit: int)
    requires 0 <= limit < 64 && a <= b
    ensures Deadband(a, limit) <= Deadband(b, limit)
  {
    DeadbandMultiplierOne(limit);
  }

  /** With 64 <= limit < 128 the value at the band edge comes out negative:
      for such bands the source's deadband does not preserve the sign. */
  lemma DeadbandWideFlipsSign(limit: int)
    requires 64 <= limit < 128
    ensures Deadband(limit, limit) <= -limit < 0
    ensures Deadband(-limit, limit) >= limit > 0
  {
    DeadbandMultiplierWide(limit);
    var m := DeadbandMultiplier(limit);
    MulMonotone(2, m, limit);
  }

  // ---------------------------------------------------------------------
  // limitAcceleration
  // ---------------------------------------------------------------------

  /** One rate-limited step from speed toward target.  When the magnitude is
      falling (target below a positive speed, or above a negative one) the
      step is bounded by deccelLimit, otherwise by accelLimit; a gap smaller
      than accelLimit is closed at once. */
  function LimitAcceleration(speed: int, target: int, accelLimit: int, deccelLimit: int): (r: int)
    ensures Abs(target - speed) < accelLimit ==> r == target
    ensures target == speed && accelLimit <= 0 ==> r == 0
    ensures r == target || r == speed - accelLimit || r == speed + accelLimit
         || r == speed - deccelLimit || r == speed + deccelLimit
         || (r == 0 && target == speed)
    ensures accelLimit > 0 && deccelLimit >= 0 ==>
              Between(speed, r, target) && Abs(r - speed) <= Max(accelLimit, deccelLimit)
  {
    if Abs(target - speed) < accelLimit then
      target
    else if target < speed && speed > 0 then
      if Abs(target - speed) > deccelLimit then speed - deccelLimit else target
    else if target < speed then
      speed - accelLimit
    else if target > speed && speed < 0 then
      if Abs(target - speed) > deccelLimit then speed + deccelLimit else target
    else if target > speed then
      speed + accelLimit
    else
      0
  }

  /** Which limit governs a step that does not snap: deccelLimit when the
      magnitude of the speed is falling, accelLimit otherwise. */
  lemma LimitAccelerationRates(speed: int, target: int, accelLimit: int, deccelLimit: int)
    requires accelLimit > 0 && deccelLimit >= 0 && Abs(target - speed) >= accelLimit
    ensures (target < speed && speed > 0) || (target > speed && speed < 0) ==>
              Abs(LimitAcceleration(speed, target, accelLimit, deccelLimit) - speed) == Min(Abs(target - speed), deccelLimit)
    ensures (target < speed && speed <= 0) || (target > speed && speed >= 0) ==>
              Abs(LimitAcceleration(speed, target, accelLimit, deccelLimit) - speed) == accelLimit
  {
  }

  /** With both limits positive every step strictly closes the gap. */
  lemma LimitAccelerationProgress(speed: int, target: int, accelLimit: int, deccelLimit: int)
    requires accelLimit > 0 && deccelLimit > 0 && speed != target
    ensures Abs(LimitAcceleration(speed, target, accelLimit, deccelLimit) - target) < Abs(speed - target)
  {
  }

  /** With positive limits a step between two points of a closed range
      stays on that range. */
  lemma LimitAccelerationInRange(speed: int, target: int, accelLimit: int, deccelLimit: int, lo: int, hi: int)
    requires lo <= speed <= hi && lo <= target <= hi
    requires accelLimit > 0 && deccelLimit >= 0
    ensures lo <= LimitAcceleration(speed, target, accelLimit, deccelLimit) <= hi
  {
  }

  /** A zero deceleration limit freezes a positive speed that should fall. */
  lemma LimitAccelerationStalls(speed: int, target: int, accelLimit: int)
    requires accelLimit > 0 && speed > 0 && speed - target >= accelLimit
    ensures LimitAcceleration(speed, target, accelLimit, 0) == speed
  {
  }

  /** n control cycles of the limiter toward a fixed target. */
  function Approach(speed: int, target: int, accelLimit: int, deccelLimit: int, n: nat): int
    decreases n
  {
    if n == 0 then speed
    else Approach(LimitAcceleration(speed, target, accelLimit, deccelLimit), target, accelLimit, deccelLimit, n - 1)
  }

  /** With both limits positive the limiter reaches its target within
      |target - speed| cycles, and stays there. */
  lemma {:induction false} ApproachReachesTarget(speed: int, target: int, accelLimit: int, deccelLimit: int, n: nat)
    requires accelLimit > 0 && deccelLimit > 0 && n >= Abs(target - speed)
    decreases n
    ensures Approach(speed, target, accelLimit, deccelLimit, n) == target
  {
    if n > 0 {
      var next := LimitAcceleration(speed, target, accelLimit, deccelLimit);
      if speed != target {
        LimitAccelerationProgress(speed, target, accelLimit, deccelLimit);
      }
      ApproachReachesTarget(next, target, accelLimit, deccelLimit, n - 1);
    }
  }

  // ---------------------------------------------------------------------
  // limitMotor
  // ---------------------------------------------------------------------

  /** Hard-stop soft limit: the command written to a motor whose position
      reading is pos, given the requested speed and the bounds. */
  function LimitMotor(pos: int, speed: int, lower: int, upper: int): (r: int)
    ensures r == 0 || r == speed
    ensures pos <= lower ==> r >= 0
    ensures pos >= upper ==> r <= 0
    ensures (speed < 0 && pos > lower) || (speed > 0 && pos < upper) ==> r == speed
  {
    if (pos <= lower && speed < 0) || (pos >= upper && speed > 0) then 0 else speed
  }

  /** Applying the hard stop twice is the same as applying it once. */
  lemma LimitMotorIdempotent(pos: int, speed: int, lower: int, upper: int)
    ensures LimitMotor(pos, LimitMotor(pos, speed, lower, upper), lower, upper) == LimitMotor(pos, speed, lower, upper)
  {
  }
}
