/**
 * Model of the arm subsystem: the goal angle that the bump operations move
 * by a fixed increment and clamp against one configured limit each, the
 * measured angle, the voltage commanded to the arm motor and the output
 * commanded to the Note-handler motor.
 *
 * Angles are exact reals. The profiled PID controller and the arm
 * feedforward are library code: the controller is seen only through the
 * goal it stores, and the feedforward is an arbitrary function.
 */
module Arm {

  /** java.lang.Math.PI, read as an exact real. */
  const Pi: real := 3.141592653589793

  /** Math.toDegrees, without floating-point rounding. */
  function ToDegrees(rad: real): real {
    rad * 180.0 / Pi
  }

  /** Math.toRadians, without floating-point rounding. */
  function ToRadians(deg: real): real {
    deg * Pi / 180.0
  }

  /** Comparing an angle in degrees is comparing it in radians. */
  lemma DegreesCompare(x: real, deg: real)
    ensures ToDegrees(x) > deg <==> x > ToRadians(deg)
    ensures ToDegrees(x) < deg <==> x < ToRadians(deg)
  {
  }

  /** The arm constants the subsystem reads. */
  datatype ArmConstants = ArmConstants(
    bumpIncrementRad: real,  // kArmBumpIncrementRad
    maxArmAngleDeg: real,    // kMaxArmAngleDeg
    minArmAngleDeg: real,    // kMinArmAngleDeg
    armOffsetRads: real)     // kArmOffsetRads

  /** The upper limit of a bump up, in radians. */
  function MaxRad(c: ArmConstants): real {
    ToRadians(c.maxArmAngleDeg)
  }

  /** The lower limit of a bump down, in radians. */
  function MinRad(c: ArmConstants): real {
    ToRadians(c.minArmAngleDeg)
  }

  /** A profile state: a position (radians) and a velocity (radians per second). */
  datatype State = State(position: real, velocity: real)

  function Min(a: real, b: real): real {
    if a <= b then a else b
  }

  function Max(a: real, b: real): real {
    if a >= b then a else b
  }

  // ---------------------------------------------------------------------
  // The goal that bumpArmUp and bumpArmDown store
  // ---------------------------------------------------------------------

  /** The goal bumpArmUp stores when the current goal is `goal`: one
      increment higher, unless that is above the maximum angle, in which
      case the maximum itself. Only the maximum is checked. */
  function BumpedUp(c: ArmConstants, goal: real): (r: real)
    ensures r <= MaxRad(c)
    ensures r == goal + c.bumpIncrementRad || r == MaxRad(c)
  {
    var newGoal := goal + c.bumpIncrementRad;
    if ToDegrees(newGoal) > c.maxArmAngleDeg then MaxRad(c) else newGoal
  }

  /** The goal bumpArmDown stores when the current goal is `goal`: one
      increment lower, unless that is below the minimum angle, in which
      case the minimum itself. Only the minimum is checked. */
  function BumpedDown(c: ArmConstants, goal: real): (r: real)
    ensures r >= MinRad(c)
    ensures r == goal - c.bumpIncrementRad || r == MinRad(c)
  {
    var newGoal := goal - c.bumpIncrementRad;
    if ToDegrees(newGoal) < c.minArmAngleDeg then MinRad(c) else newGoal
  }

  /** A bump up that stays within the maximum moves the goal by exactly one increment. */
  lemma BumpUpExact(c: ArmConstants, goal: real)
    requires goal + c.bumpIncrementRad <= MaxRad(c)
    ensures BumpedUp(c, goal) == goal + c.bumpIncrementRad
  {
  }

  /** A bump up that would overshoot the maximum lands exactly on it. */
  lemma BumpUpSaturates(c: ArmConstants, goal: real)
    requires goal + c.bumpIncrementRad > MaxRad(c)
    ensures BumpedUp(c, goal) == MaxRad(c)
  {
  }

  /** A bump down that stays within the minimum moves the goal by exactly one increment. */
  lemma BumpDownExact(c: ArmConstants, goal: real)
    requires goal - c.bumpIncrementRad >= MinRad(c)
    ensures BumpedDown(c, goal) == goal - c.bumpIncrementRad
  {
  }

  /** A bump down that would undershoot the minimum lands exactly on it. */
  lemma BumpDownSaturates(c: ArmConstants, goal: real)
    requires goal - c.bumpIncrementRad < MinRad(c)
    ensures BumpedDown(c, goal) == MinRad(c)
  {
  }

  /** Each bump clamps one side only: a bump up never consults the minimum
      angle and a bump down never consults the maximum, so a bump up may
      leave the goal below the minimum and a bump down may leave it above
      the maximum. */
  lemma BumpsAreOneSided(c: ArmConstants, goal: real, otherMin: real, otherMax: real)
    ensures BumpedUp(c, goal) == BumpedUp(c.(minArmAngleDeg := otherMin), goal)
    ensures BumpedDown(c, goal) == BumpedDown(c.(maxArmAngleDeg := otherMax), goal)
    ensures goal + c.bumpIncrementRad < MinRad(c) <= MaxRad(c) ==> BumpedUp(c, goal) < MinRad(c)
    ensures goal - c.bumpIncrementRad > MaxRad(c) >= MinRad(c) ==> BumpedDown(c, goal) > MaxRad(c)
  {
  }

  /** Within the limits, a bump down undoes a bump up and a bump up undoes a bump down. */
  lemma BumpsUndoEachOther(c: ArmConstants, goal: real)
    ensures MinRad(c) <= goal && goal + c.bumpIncrementRad <= MaxRad(c) ==>
              BumpedDown(c, BumpedUp(c, goal)) == goal
    ensures goal <= MaxRad(c) && MinRad(c) <= goal - c.bumpIncrementRad ==>
              BumpedUp(c, BumpedDown(c, goal)) == goal
  {
  }

  /** The goal after `n` consecutive bumps up from `goal`. */
  function BumpedUpTimes(c: ArmConstants, goal: real, n: nat): real
    decreases n
  {
    if n == 0 then goal else BumpedUp(c, BumpedUpTimes(c, goal, n - 1))
  }

  /** The goal after `n` consecutive bumps down from `goal`. */
  function BumpedDownTimes(c: ArmConstants, goal: real, n: nat): real
    decreases n
  {
    if n == 0 then goal else BumpedDown(c, BumpedDownTimes(c, goal, n - 1))
  }

  /** From a goal at or below the maximum, n bumps up give min(goal + n*increment, maximum). */
  lemma {:induction false} BumpedUpTimesIsMin(c: ArmConstants, goal: real, n: nat)
    requires goal <= MaxRad(c)
    ensures BumpedUpTimes(c, goal, n) == Min(goal + (n as real) * c.bumpIncrementRad, MaxRad(c))
  {
    if n > 0 {
      BumpedUpTimesIsMin(c, goal, n - 1);
      var prev := BumpedUpTimes(c, goal, n - 1);
      var d := c.bumpIncrementRad;
      assert (n as real) * d == ((n - 1) as real) * d + d;
      if prev + d <= MaxRad(c) {
        BumpUpExact(c, prev);
      } else {
        BumpUpSaturates(c, prev);
      }
    }
  }

  /** From a goal at or above the minimum, n bumps down give max(goal - n*increment, minimum). */
  lemma {:induction false} BumpedDownTimesIsMax(c: ArmConstants, goal: real, n: nat)
    requires goal >= MinRad(c)
    ensures BumpedDownTimes(c, goal, n) == Max(goal - (n as real) * c.bumpIncrementRad, MinRad(c))
  {
    if n > 0 {
      BumpedDownTimesIsMax(c, goal, n - 1);
      var prev := BumpedDownTimes(c, goal, n - 1);
      var d := c.bumpIncrementRad;
      assert (n as real) * d == ((n - 1) as real) * d + d;
      if prev - d >= MinRad(c) {
        BumpDownExact(c, prev);
      } else {
        BumpDownSaturates(c, prev);
      }
    }
  }

  /** From the initial goal 0, with a maximum of at least 0 degrees, n bumps
      up give min(n*increment, maximum). */
  lemma BumpedUpFromZero(c: ArmConstants, n: nat)
    requires c.maxArmAngleDeg >= 0.0
    ensures BumpedUpTimes(c, 0.0, n) == Min((n as real) * c.bumpIncrementRad, MaxRad(c))
  {
    BumpedUpTimesIsMin(c, 0.0, n);
  }

  /** From the initial goal 0, with a minimum of at most 0 degrees, n bumps
      down give max(-n*increment, minimum). */
  lemma BumpedDownFromZero(c: ArmConstants, n: nat)
    requires c.minArmAngleDeg <= 0.0
    ensures BumpedDownTimes(c, 0.0, n) == Max(-(n as real) * c.bumpIncrementRad, MinRad(c))
  {
    BumpedDownTimesIsMax(c, 0.0, n);
  }

  /** Limits 0..90 degrees and a 5 degree increment: 17 bumps up from 0 reach
      85 degrees, and 18 or 20 bumps reach 90 degrees, never 100. */
  lemma FiveDegreeBumpsStopAtNinety()
    ensures var c := ArmConstants(ToRadians(5.0), 90.0, 0.0, 0.0);
      && BumpedUpTimes(c, 0.0, 17) == ToRadians(85.0)
      && BumpedUpTimes(c, 0.0, 18) == ToRadians(90.0)
      && BumpedUpTimes(c, 0.0, 20) == ToRadians(90.0)
  {
    var c := ArmConstants(ToRadians(5.0), 90.0, 0.0, 0.0);
    BumpedUpFromZero(c, 17);
    BumpedUpFromZero(c, 18);
    BumpedUpFromZero(c, 20);
  }

  // ---------------------------------------------------------------------
  // Measured angle
  // ---------------------------------------------------------------------

  /** getMeasurement: the encoder's distance plus the calibration offset. */
  function Measurement(c: ArmConstants, encoderDistance: real): real {
    encoderDistance + c.armOffsetRads
  }

  /** The encoder distance at which the arm measures `angle`. */
  function EncoderDistanceFor(c: ArmConstants, angle: real): real {
    angle - c.armOffsetRads
  }

  /** The measurement is the encoder distance shifted by the offset and
      nothing else: measurements differ exactly as encoder distances do, and
      reading back the encoder distance of a measurement recovers it. */
  lemma MeasurementIsOffsetEncoder(c: ArmConstants, d1: real, d2: real)
    ensures Measurement(c, d1) - d1 == c.armOffsetRads
    ensures Measurement(c, d2) - Measurement(c, d1) == d2 - d1
    ensures EncoderDistanceFor(c, Measurement(c, d1)) == d1
    ensures Measurement(c, EncoderDistanceFor(c, d1)) == d1
  {
  }

  // ---------------------------------------------------------------------
  // The subsystem object
  // ---------------------------------------------------------------------

  /**
   * The arm subsystem: its constants, its feedforward, the controller's goal
   * and the last outputs commanded to its two motors.
   */
  class ArmSubsystem {
    const constants: ArmConstants
    /** The arm feedforward: a voltage from a setpoint's position and velocity. */
    const feedforward: (real, real) -> real
    /** The profiled controller's goal. */
    var goal: State
    /** The last voltage commanded to the arm motor. */
    var armVoltage: real
    /** The last output commanded to the Note-handler motor. */
    var handlerOutput: real

    /** The controller starts with goal 0 at rest; both motors start idle. */
    constructor (constants: ArmConstants, feedforward: (real, real) -> real)
      ensures this.constants == constants && this.feedforward == feedforward
      ensures goal == State(0.0, 0.0)
      ensures armVoltage == 0.0 && handlerOutput == 0.0
    {
      this.constants := constants;
      this.feedforward := feedforward;
      goal := State(0.0, 0.0);
      armVoltage := 0.0;
      handlerOutput := 0.0;
    }

    /** The controller's goal setter: a goal at the given position, at rest,
        stored as given (no clamping). */
    method SetGoal(position: real)
      modifies this`goal
      ensures goal == State(position, 0.0)
    {
      goal := State(position, 0.0);
    }

    /** bumpArmUp: raise the goal (not the measured angle) by one increment,
        clamped to the maximum angle. */
    method BumpArmUp()
      modifies this`goal
      ensures goal == State(BumpedUp(constants, old(goal.position)), 0.0)
      ensures goal.position <= MaxRad(constants)
    {
      var state := goal;
      var newGoal := state.position + constants.bumpIncrementRad;
      if ToDegrees(newGoal) > constants.maxArmAngleDeg {
        newGoal := ToRadians(constants.maxArmAngleDeg);
      }
      SetGoal(newGoal);
    }

    /** bumpArmDown: lower the goal (not the measured angle) by one increment,
        clamped to the minimum angle. */
    method BumpArmDown()
      modifies this`goal
      ensures goal == State(BumpedDown(constants, old(goal.position)), 0.0)
      ensures goal.position >= MinRad(constants)
    {
      var state := goal;
      var newGoal := state.position - constants.bumpIncrementRad;
      if ToDegrees(newGoal) < constants.minArmAngleDeg {
        newGoal := ToRadians(constants.minArmAngleDeg);
      }
      SetGoal(newGoal);
    }

    /** getMeasurement, with the encoder's distance as input. */
    method GetMeasurement(encoderDistance: real) returns (angle: real)
      ensures angle == Measurement(constants, encoderDistance)
    {
      angle := Measurement(constants, encoderDistance);
    }

    /** useOutput: command the PID output plus the feedforward of the
        setpoint (never of the goal or the measurement) to the arm motor. */
    method UseOutput(output: real, setpoint: State)
      modifies this`armVoltage
      ensures armVoltage == output + feedforward(setpoint.position, setpoint.velocity)
    {
      var ff := feedforward(setpoint.position, setpoint.velocity);
      armVoltage := output + ff;
    }

    /** handlerMotorDriveForward: run the handler at the handler speed. */
    method HandlerMotorDriveForward(handlerSpeed: real)
      modifies this`handlerOutput
      ensures handlerOutput == handlerSpeed
    {
      handlerOutput := handlerSpeed;
    }

    /** handlerMotorDriveBackward: run the handler at the negated handler speed. */
    method HandlerMotorDriveBackward(handlerSpeed: real)
      modifies this`handlerOutput
      ensures handlerOutput == -handlerSpeed
    {
      handlerOutput := -handlerSpeed;
    }

    /** handlerMotorStop: command output 0 to the handler. */
    method HandlerMotorStop()
      modifies this`handlerOutput
      ensures handlerOutput == 0.0
    {
      handlerOutput := 0.0;
    }
  }
}
