# Arm goal management and vision target lookup

A Dafny model of the two pieces of logic that the competition robot's
subsystems implement themselves. Everything else in those subsystems
delegates to library and vendor code.

- **Arm subsystem** (`arm.dfy`, module `Arm`). The class `ArmSubsystem`
  holds the profiled controller's goal, which starts at 0 and is at rest.
  It also holds the last voltage commanded to the arm motor and the last
  output commanded to the Note-handler motor. `BumpArmUp` and `BumpArmDown`
  read the goal, not the measured angle. They add or subtract the bump
  increment (radians). Each then compares the result in degrees against one
  limit only: the maximum for a bump up, the minimum for a bump down. The
  clamped value is stored through the controller's goal setter.
  The pure functions `BumpedUp` and `BumpedDown` state the goal each bump
  stores. Lemmas give the exact increments, the saturation at the limits,
  the one-sidedness, the undoing of one bump by the other, and the closed
  form after n bumps (`min(n*increment, max)` from 0). The measured angle is
  the encoder distance plus the calibration offset. The arm voltage is the
  PID output plus the feedforward of the setpoint. The handler commands are
  +speed, -speed and 0.
- **Vision subsystem** (`vision.dfy`, module `Vision`). `GetTargetForTag`
  returns the first target of the camera's latest result that has the
  requested fiducial ID, or `None`. It returns `None` when the result has no
  targets or no target has that ID. The model follows the source's
  `filter(...).findFirst()`: `FilterById` keeps the matching targets in list
  order and the head of that list is returned.
- `wrappers.dfy` holds the `Option` type that stands for a possibly-null
  reference.

Angles are exact reals. `Math.toDegrees` and `Math.toRadians` are
multiplication by `180/PI` and `PI/180`, with `PI` the value of `Math.PI`,
so the degree comparisons in the bumps are the same as comparisons in
radians (`DegreesCompare`). The arm constants (`kArmBumpIncrementRad`,
`kMaxArmAngleDeg`, `kMinArmAngleDeg`, `kArmOffsetRads`) are defined in the
robot's `Constants` class, which is not part of this model. They are fields of
the `ArmConstants` datatype, so every property holds for any values they
take. The feedforward (`ArmFeedforward.calculate`) is library code. It is the
`feedforward` field, an arbitrary function of position and velocity.

`setGoal` is the library setter and stores its argument unchanged. The only
clamps are the one-sided checks inside the two bump methods
(`ArmSubsystem.java:105`, `:117`). So a bump down can leave the goal above
the maximum, and a bump up can leave it below the minimum
(`BumpsAreOneSided`).

## Model

| member | source | states |
|---|---|---|
| `Arm.BumpedUp` | src/main/java/frc/robot/subsystems/ArmSubsystem.java:103-106 | the goal a bump up stores is never above the maximum angle (in radians), and it is either the old goal plus one increment or exactly the maximum |
| `Arm.BumpedDown` | src/main/java/frc/robot/subsystems/ArmSubsystem.java:115-118 | the goal a bump down stores is never below the minimum angle, and it is either the old goal minus one increment or exactly the minimum |
| `Arm.DegreesCompare` | src/main/java/frc/robot/subsystems/ArmSubsystem.java:105 | an angle is above (below) a limit in degrees exactly when it is above (below) that limit converted to radians |
| `Arm.BumpUpExact` | src/main/java/frc/robot/subsystems/ArmSubsystem.java:104-106 | when goal plus increment is within the maximum, a bump up stores exactly goal plus increment |
| `Arm.BumpUpSaturates` | src/main/java/frc/robot/subsystems/ArmSubsystem.java:104-106 | when goal plus increment overshoots the maximum, a bump up stores exactly the maximum |
| `Arm.BumpDownExact` | src/main/java/frc/robot/subsystems/ArmSubsystem.java:116-118 | when goal minus increment is within the minimum, a bump down stores exactly goal minus increment |
| `Arm.BumpDownSaturates` | src/main/java/frc/robot/subsystems/ArmSubsystem.java:116-118 | when goal minus increment undershoots the minimum, a bump down stores exactly the minimum |
| `Arm.BumpsAreOneSided` | src/main/java/frc/robot/subsystems/ArmSubsystem.java:103-118 | a bump up does not depend on the minimum angle and a bump down does not depend on the maximum, so a bump up can end below the minimum and a bump down above the maximum |
| `Arm.BumpsUndoEachOther` | src/main/java/frc/robot/subsystems/ArmSubsystem.java:100-119 | away from the limits, a bump down after a bump up restores the goal, and so does a bump up after a bump down |
| `Arm.BumpedUpTimesIsMin` | src/main/java/frc/robot/subsystems/ArmSubsystem.java:100-107 | from any goal at or below the maximum, n bumps up give min(goal + n*increment, maximum) |
| `Arm.BumpedDownTimesIsMax` | src/main/java/frc/robot/subsystems/ArmSubsystem.java:113-119 | from any goal at or above the minimum, n bumps down give max(goal - n*increment, minimum) |
| `Arm.BumpedUpFromZero` | src/main/java/frc/robot/subsystems/ArmSubsystem.java:100-107 | from the initial goal 0 and a maximum of at least 0 degrees, n bumps up give min(n*increment, maximum) |
| `Arm.BumpedDownFromZero` | src/main/java/frc/robot/subsystems/ArmSubsystem.java:113-119 | from the initial goal 0 and a minimum of at most 0 degrees, n bumps down give max(-n*increment, minimum) |
| `Arm.FiveDegreeBumpsStopAtNinety` | src/main/java/frc/robot/subsystems/ArmSubsystem.java:100-107 | with limits 0..90 degrees and a 5 degree increment, 17 bumps from 0 reach 85 degrees, and 18 or 20 bumps reach exactly 90 degrees |
| `Arm.MeasurementIsOffsetEncoder` | src/main/java/frc/robot/subsystems/ArmSubsystem.java:92 | the measurement is the encoder distance plus the offset and nothing else: differences are preserved and the encoder distance is recovered from the measurement |
| `Arm.ArmSubsystem.constructor` | src/main/java/frc/robot/subsystems/ArmSubsystem.java:56-67 | the goal starts at position 0 at rest, and both motors start idle |
| `Arm.ArmSubsystem.SetGoal` | src/main/java/frc/robot/subsystems/ArmSubsystem.java:106 | the goal setter stores the position as given, at rest, with no clamping |
| `Arm.ArmSubsystem.BumpArmUp` | src/main/java/frc/robot/subsystems/ArmSubsystem.java:100-107 | the new goal is `BumpedUp` of the old goal's position (not of the measurement), at rest, and at most the maximum; nothing else changes |
| `Arm.ArmSubsystem.BumpArmDown` | src/main/java/frc/robot/subsystems/ArmSubsystem.java:113-119 | the new goal is `BumpedDown` of the old goal's position, at rest, and at least the minimum; nothing else changes |
| `Arm.ArmSubsystem.GetMeasurement` | src/main/java/frc/robot/subsystems/ArmSubsystem.java:90-93 | the measured angle is the encoder distance plus the calibration offset |
| `Arm.ArmSubsystem.UseOutput` | src/main/java/frc/robot/subsystems/ArmSubsystem.java:81-87 | the arm voltage becomes the PID output plus the feedforward of the setpoint's position and velocity; the goal and handler are unchanged |
| `Arm.ArmSubsystem.HandlerMotorDriveForward` | src/main/java/frc/robot/subsystems/ArmSubsystem.java:149-152 | the handler is commanded the handler speed |
| `Arm.ArmSubsystem.HandlerMotorDriveBackward` | src/main/java/frc/robot/subsystems/ArmSubsystem.java:157-160 | the handler is commanded the negated handler speed |
| `Arm.ArmSubsystem.HandlerMotorStop` | src/main/java/frc/robot/subsystems/ArmSubsystem.java:165-168 | the handler is commanded 0 |
| `Vision.FilterById` | src/main/java/frc/robot/subsystems/VisionSubsystem.java:42-43 | the filtered list holds exactly the targets of the list that have the requested ID, and is no longer than the list |
| `Vision.FilterStartsWithFirstMatch` | src/main/java/frc/robot/subsystems/VisionSubsystem.java:42-44 | the filtered list starts with the first target, in list order, that has the requested ID |
| `Vision.FirstMatchExists` | src/main/java/frc/robot/subsystems/VisionSubsystem.java:42-44 | when some target has the requested ID, a first such target exists at or before it |
| `Vision.GetTargetForTag` | src/main/java/frc/robot/subsystems/VisionSubsystem.java:36-51 | no targets gives none; a returned target is in the list and has the requested ID; the result is none exactly when no target in the list has that ID |
| `Vision.GetTargetForTagIsFirst` | src/main/java/frc/robot/subsystems/VisionSubsystem.java:42-47 | when position i holds the first target with the requested ID, the result is that target |
| `Vision.GetTargetForTagFoundFirst` | src/main/java/frc/robot/subsystems/VisionSubsystem.java:42-47 | a returned target is the one at the first position whose ID matches |

## Left out

- The profiled PID controller and trapezoidal profile are library code and are not modelled: profile stepping, velocity and acceleration bounds, convergence, the PID computation. The controller appears only as the goal it stores and the `output` and `setpoint` passed to `UseOutput`.
- The arm feedforward formula is library code. The feedforward is an arbitrary function of the setpoint's position and velocity.
- Floating point: angles are exact reals, and the conversions ignore IEEE rounding. Near a limit, the double computation can round differently from the model.
- Hardware: the CAN motor controllers, the encoder and the camera are not modelled. The encoder distance and the camera's latest result are inputs, and motor commands are fields that record the last value set.
- `getHandlerSpeed` rereads a dashboard slider. The handler speed is an input to the handler methods, and the `m_handlerSpeed` cache is not modelled.
- The dashboard setup (`setupShuffleboard`) and the exception it ignores, and the scheduler hooks `periodic` and `simulationPeriodic`, which are empty, are not modelled. The library's profiled subsystem has its own `periodic`, which as documented calls `useOutput` with the controller's output and setpoint. `ArmSubsystem.java:69-73` replaces it with an empty body. So nothing in the code shown ever calls `useOutput`, and a bumped goal never reaches the arm motor. This follows from reading the code.
- `PhotonPipelineResult.hasTargets` is library code. It is modelled as "the target list is not empty".
- The intake and shooter subsystems are sensor and motor plumbing with dashboard and preference storage, and have no logic of their own to model.
- Concurrency: the subsystem runs on one scheduler thread, and the model is sequential.
