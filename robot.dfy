/** The drive part of robot.hpp: the Robot's per-cycle drive state, the tank
    and arcade drive updates, the two setDriveSpeed overloads and the
    force-correcting soft limit.  The Robot's own copies of deadband,
    cubifySpeed, limitAcceleration and limitMotor are the functions of
    module Utility, which they repeat line for line. */
module RobotModel {
  import opened Numeric
  import opened Utility

  /** The turn-authority factor of Robot::arcadeDrive, 0.85 = 17/20. */
  const ArcadeTurnFactor: real := 0.85

  /** The constructor's encoder ticks per foot of travel,
      (900 * 3 / 5) / ((3.1415 * 3.25) / 12), converted to int. */
  function TicksPerFoot(): int
  {
    Trunc(TruncDiv(900 * 3, 5) as real / ((3.1415 * 3.25) / 12.0))
  }

  lemma TicksPerFootValue()
    ensures TicksPerFoot() == 634
  {
  }

  // ---------------------------------------------------------------------
  // forceLimitMotor
  // ---------------------------------------------------------------------

  /** Force-correcting soft limit: the command written to a motor whose
      position reading is pos.  At or below the lower bound a request that
      does not move up becomes +correctionSpeed; otherwise, at or above the
      upper bound a request that does not move down becomes -correctionSpeed;
      any other request passes through. */
  function ForceLimitMotor(pos: int, speed: int, correctionSpeed: int, lower: int, upper: int): (r: int)
    ensures r == correctionSpeed || r == -correctionSpeed || r == speed
    ensures pos <= lower && speed <= 0 ==> r == correctionSpeed
    ensures pos >= upper && speed >= 0 && (pos > lower || speed > 0) ==> r == -correctionSpeed
    ensures lower < pos < upper ==> r == speed
    ensures pos <= lower && speed > 0 && pos < upper ==> r == speed
    ensures pos >= upper && speed < 0 && pos > lower ==> r == speed
  {
    if pos <= lower && speed <= 0 then correctionSpeed
    else if pos >= upper && speed >= 0 then -correctionSpeed
    else speed
  }

  /** With ordered bounds and a non-negative correction speed, a motor at or
      past a bound is never driven further past it. */
  lemma ForceLimitMotorSafe(pos: int, speed: int, correctionSpeed: int, lower: int, upper: int)
    requires lower < upper && correctionSpeed >= 0
    ensures pos <= lower ==> ForceLimitMotor(pos, speed, correctionSpeed, lower, upper) >= 0
    ensures pos >= upper ==> ForceLimitMotor(pos, speed, correctionSpeed, lower, upper) <= 0
  {
  }

  /** With correction speed 0 the force-correcting policy is the hard stop. */
  lemma ForceLimitWithoutCorrection(pos: int, speed: int, lower: int, upper: int)
    ensures ForceLimitMotor(pos, speed, 0, lower, upper) == LimitMotor(pos, speed, lower, upper)
  {
  }

  // ---------------------------------------------------------------------
  // arcadeDrive targets
  // ---------------------------------------------------------------------

  /** The left target of arcadeDrive: both axes deadbanded, then the curve of
      speed + direction * 0.85. */
  function ArcadeLeftTarget(speed: int, direction: int, band: int): (r: int)
    requires DeadbandDefined(speed, band) && DeadbandDefined(direction, band)
    ensures -StickRange <= r <= StickRange
  {
    MixLeft(Deadband(speed, band), Deadband(direction, band), 17, 20)
  }

  /** The right target of arcadeDrive: the curve of speed - direction * 0.85. */
  function ArcadeRightTarget(speed: int, direction: int, band: int): (r: int)
    requires DeadbandDefined(speed, band) && DeadbandDefined(direction, band)
    ensures -StickRange <= r <= StickRange
  {
    MixRight(Deadband(speed, band), Deadband(direction, band), 17, 20)
  }

  /** The fraction 17/20 is the real factor 0.85 of the source. */
  lemma ArcadeTargetIsRealMix(speed: int, direction: int, band: int)
    requires DeadbandDefined(speed, band) && DeadbandDefined(direction, band)
    ensures var s, d := Deadband(speed, band), Deadband(direction, band);
            ArcadeLeftTarget(speed, direction, band) == Cubify(Trunc(s as real + d as real * ArcadeTurnFactor)) &&
            ArcadeRightTarget(speed, direction, band) == Cubify(Trunc(s as real - d as real * ArcadeTurnFactor))
  {
    ArcadeMixIsReal(Deadband(speed, band), Deadband(direction, band));
  }

  lemma ArcadeMixIsReal(s: int, d: int)
    ensures MixLeft(s, d, 17, 20) == Cubify(Trunc(s as real + d as real * ArcadeTurnFactor))
    ensures MixRight(s, d, 17, 20) == Cubify(Trunc(s as real - d as real * ArcadeTurnFactor))
  {
    ArcadeSteerIsReal(s, d);
  }

  lemma ArcadeSteerIsReal(s: int, d: int)
    ensures Steer(s, d, 17, 20) == Trunc(s as real + d as real * ArcadeTurnFactor)
    ensures Steer(s, -d, 17, 20) == Trunc(s as real - d as real * ArcadeTurnFactor)
  {
    assert s as real + d as real * ArcadeTurnFactor == (20 * s + 17 * d) as real / 20 as real;
    assert s as real - d as real * ArcadeTurnFactor == (20 * s + 17 * -d) as real / 20 as real;
    TruncOfQuotient(20 * s + 17 * d, 20);
    TruncOfQuotient(20 * s + 17 * -d, 20);
  }

  /** A straight stick gives equal targets; a pure turn gives opposite ones;
      both stay on the stick range; and a right turn (for a band under 64,
      where the deadband keeps the sign) puts the left side ahead. */
  lemma ArcadeTargetSymmetry(speed: int, direction: int, band: int)
    requires DeadbandDefined(speed, band) && DeadbandDefined(direction, band)
    ensures Deadband(direction, band) == 0 ==>
              ArcadeLeftTarget(speed, direction, band) == ArcadeRightTarget(speed, direction, band) == Cubify(Deadband(speed, band))
    ensures Deadband(speed, band) == 0 ==>
              ArcadeLeftTarget(speed, direction, band) == -ArcadeRightTarget(speed, direction, band)
    ensures -StickRange <= ArcadeLeftTarget(speed, direction, band) <= StickRange
    ensures -StickRange <= ArcadeRightTarget(speed, direction, band) <= StickRange
    ensures 0 <= band < 64 && direction >= 0 ==>
              ArcadeLeftTarget(speed, direction, band) >= ArcadeRightTarget(speed, direction, band)
  {
    var s, d := Deadband(speed, band), Deadband(direction, band);
    MixStraight(s, 17, 20);
    MixSpin(d, 17, 20);
    if 0 <= band < 64 {
      DeadbandNarrow(direction, band);
    }
    MixTurnOrder(s, d, 17, 20);
  }

  // ---------------------------------------------------------------------
  // class Robot
  // ---------------------------------------------------------------------

  /** The drive state of the robot: the last speed stored for each side, the
      configured limits, and the last command written to each of the four
      drive motors. */
  class Robot {
    var leftSpeed: int
    var rightSpeed: int
    var maxAccel: int
    var maxDecel: int
    var joyDeadband: int
    var ticksPerFoot: int

    var leftDrive1: int
    var leftDrive2: int
    var rightDrive1: int
    var rightDrive2: int

    /** Both left motors are commanded left, both right motors right. */
    ghost predicate DriveCommands(left: int, right: int)
      reads this
    {
      leftDrive1 == left && leftDrive2 == left && rightDrive1 == right && rightDrive2 == right
    }

    /** Both stored side speeds are on the stick range. */
    ghost predicate SpeedsInRange()
      reads this
    {
      -StickRange <= leftSpeed <= StickRange && -StickRange <= rightSpeed <= StickRange
    }

    /** The source assigns leftSpeed twice and never rightSpeed, so the
        initial rightSpeed is arbitrary; the motors are not written. */
    constructor (maxAcceleration: int, maxDeceleration: int, joystickDeadband: int)
      ensures leftSpeed == 0
      ensures maxAccel == maxAcceleration && maxDecel == maxDeceleration
      ensures joyDeadband == joystickDeadband
      ensures ticksPerFoot == TicksPerFoot()
    {
      leftSpeed := 0;
      leftSpeed := 0;
      maxAccel := maxAcceleration;
      maxDecel := maxDeceleration;
      joyDeadband := joystickDeadband;
      ticksPerFoot := TicksPerFoot();
    }

    /** setDriveSpeed(int): the same command to all four drive motors. */
    method SetDriveSpeed(speed: int)
      modifies this`leftDrive1, this`leftDrive2, this`rightDrive1, this`rightDrive2
      ensures DriveCommands(speed, speed)
    {
      leftDrive1 := speed;
      leftDrive2 := speed;
      rightDrive1 := speed;
      rightDrive2 := speed;
    }

    /** setDriveSpeed(int, int): left to both left motors, right to both right ones. */
    method SetDriveSpeeds(left: int, right: int)
      modifies this`leftDrive1, this`leftDrive2, this`rightDrive1, this`rightDrive2
      ensures DriveCommands(left, right)
    {
      leftDrive1 := left;
      leftDrive2 := left;
      rightDrive1 := right;
      rightDrive2 := right;
    }

    /** The tail shared by tankDrive and arcadeDrive: the side speeds take
        their targets at once under noLimit, or one limiter step toward them
        otherwise, and are then sent to the motors. */
    method DriveToward(leftTarget: int, rightTarget: int, noLimit: bool)
      modifies this`leftSpeed, this`rightSpeed, this`leftDrive1, this`leftDrive2, this`rightDrive1, this`rightDrive2
      ensures leftSpeed == (if noLimit then leftTarget else LimitAcceleration(old(leftSpeed), leftTarget, maxAccel, maxDecel))
      ensures rightSpeed == (if noLimit then rightTarget else LimitAcceleration(old(rightSpeed), rightTarget, maxAccel, maxDecel))
      ensures DriveCommands(leftSpeed, rightSpeed)
      ensures !noLimit && maxAccel > 0 && maxDecel >= 0 ==>
                Between(old(leftSpeed), leftSpeed, leftTarget) &&
                Between(old(rightSpeed), rightSpeed, rightTarget) &&
                Abs(leftSpeed - old(leftSpeed)) <= Max(maxAccel, maxDecel) &&
                Abs(rightSpeed - old(rightSpeed)) <= Max(maxAccel, maxDecel)
      ensures (-StickRange <= leftTarget <= StickRange && -StickRange <= rightTarget <= StickRange &&
               (noLimit || (old(SpeedsInRange()) && maxAccel > 0 && maxDecel >= 0))) ==> SpeedsInRange()
    {
      if noLimit {
        leftSpeed := leftTarget;
        rightSpeed := rightTarget;
      } else {
        if SpeedsInRange() && maxAccel > 0 && maxDecel >= 0 &&
           -StickRange <= leftTarget <= StickRange && -StickRange <= rightTarget <= StickRange {
          LimitAccelerationInRange(leftSpeed, leftTarget, maxAccel, maxDecel, -StickRange, StickRange);
          LimitAccelerationInRange(rightSpeed, rightTarget, maxAccel, maxDecel, -StickRange, StickRange);
        }
        leftSpeed := LimitAcceleration(leftSpeed, leftTarget, maxAccel, maxDecel);
        rightSpeed := LimitAcceleration(rightSpeed, rightTarget, maxAccel, maxDecel);
      }
      SetDriveSpeeds(leftSpeed, rightSpeed);
    }

    /** tankDrive: each stick deadbanded, then taken at once under noLimit or
        one limiter step away from the stored speed otherwise; the stored
        speeds are sent to the motors.  No curve is applied. */
    method TankDrive(left: int, right: int, noLimit: bool)
      requires DeadbandDefined(left, joyDeadband) && DeadbandDefined(right, joyDeadband)
      modifies this`leftSpeed, this`rightSpeed, this`leftDrive1, this`leftDrive2, this`rightDrive1, this`rightDrive2
      ensures var lt, rt := Deadband(left, joyDeadband), Deadband(right, joyDeadband);
              leftSpeed == (if noLimit then lt else LimitAcceleration(old(leftSpeed), lt, maxAccel, maxDecel)) &&
              rightSpeed == (if noLimit then rt else LimitAcceleration(old(rightSpeed), rt, maxAccel, maxDecel))
      ensures DriveCommands(leftSpeed, rightSpeed)
      ensures !noLimit && maxAccel > 0 && maxDecel >= 0 ==>
                Between(old(leftSpeed), leftSpeed, Deadband(left, joyDeadband)) &&
                Between(old(rightSpeed), rightSpeed, Deadband(right, joyDeadband)) &&
                Abs(leftSpeed - old(leftSpeed)) <= Max(maxAccel, maxDecel) &&
                Abs(rightSpeed - old(rightSpeed)) <= Max(maxAccel, maxDecel)
      ensures (-StickRange <= left <= StickRange && -StickRange <= right <= StickRange && 0 <= joyDeadband < 64 &&
               (noLimit || (old(SpeedsInRange()) && maxAccel > 0 && maxDecel >= 0))) ==> SpeedsInRange()
    {
      var leftTarget := Deadband(left, joyDeadband);
      var rightTarget := Deadband(right, joyDeadband);
      if 0 <= joyDeadband < 64 {
        DeadbandNarrow(left, joyDeadband);
        DeadbandNarrow(right, joyDeadband);
      }
      DriveToward(leftTarget, rightTarget, noLimit);
    }

    /** arcadeDrive: both axes deadbanded and mixed into curved left and
        right targets, then taken at once under noLimit or one limiter step
        away from the stored speeds otherwise; the stored speeds are sent to
        the motors. */
    method ArcadeDrive(speed: int, direction: int, noLimit: bool)
      requires DeadbandDefined(speed, joyDeadband) && DeadbandDefined(direction, joyDeadband)
      modifies this`leftSpeed, this`rightSpeed, this`leftDrive1, this`leftDrive2, this`rightDrive1, this`rightDrive2
      ensures var lt, rt := ArcadeLeftTarget(speed, direction, joyDeadband), ArcadeRightTarget(speed, direction, joyDeadband);
              leftSpeed == (if noLimit then lt else LimitAcceleration(old(leftSpeed), lt, maxAccel, maxDecel)) &&
              rightSpeed == (if noLimit then rt else LimitAcceleration(old(rightSpeed), rt, maxAccel, maxDecel))
      ensures DriveCommands(leftSpeed, rightSpeed)
      ensures !noLimit && maxAccel > 0 && maxDecel >= 0 ==>
                Between(old(leftSpeed), leftSpeed, ArcadeLeftTarget(speed, direction, joyDeadband)) &&
                Between(old(rightSpeed), rightSpeed, ArcadeRightTarget(speed, direction, joyDeadband)) &&
                Abs(leftSpeed - old(leftSpeed)) <= Max(maxAccel, maxDecel) &&
                Abs(rightSpeed - old(rightSpeed)) <= Max(maxAccel, maxDecel)
      ensures noLimit || (old(SpeedsInRange()) && maxAccel > 0 && maxDecel >= 0) ==> SpeedsInRange()
    {
      var left := ArcadeLeftTarget(speed, direction, joyDeadband);
      var right := ArcadeRightTarget(speed, direction, joyDeadband);
      DriveToward(left, right, noLimit);
    }
  }

  /** A driver-control sequence with the settings of the opcontrol loop
      (acceleration 3, deceleration 5, deadband 5): a straight stick gives
      equal sides, a pure turn opposite ones, and the limiter steps by at
      most 5 per cycle. */
  method DriverCycleExample()
  {
    var robot := new Robot(3, 5, 5);
    DeadbandNarrow(64, 5);
    DeadbandNarrow(0, 5);
    assert Deadband(64, 5) == 59 && Deadband(0, 5) == 0;
    ArcadeTargetSymmetry(64, 0, 5);
    robot.ArcadeDrive(64, 0, true);
    assert robot.leftSpeed == robot.rightSpeed == Cubify(59);
    assert robot.leftDrive1 == robot.rightDrive2;
    robot.ArcadeDrive(0, 64, false);
    assert Abs(robot.leftSpeed - Cubify(59)) <= 5;
    DeadbandNarrow(100, 5);
    DeadbandNarrow(-100, 5);
    robot.TankDrive(100, -100, true);
    assert robot.leftSpeed == 95 && robot.rightSpeed == -95;
  }
}
