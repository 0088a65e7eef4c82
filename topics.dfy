/**
 * The shapes of the uORB messages the dataset generator reads and writes, reduced to the
 * fields it touches. Single-precision floats are modelled as reals.
 */
module Topics {
  import opened Wrappers

  /** Three components; for a matrix row, x, y and z are columns 0, 1 and 2. */
  datatype Vec3 = Vec3(x: real, y: real, z: real)

  /** `vehicle_attitude.q`, in the order the C++ module hands it to `matrix::Quatf`. */
  datatype Quaternion = Quaternion(q0: real, q1: real, q2: real, q3: real)

  /** A 3x3 direction-cosine matrix, row by row: `R(i, j)` is column j of row i. */
  datatype Matrix3 = Matrix3(row0: Vec3, row1: Vec3, row2: Vec3)

  /** `vehicle_local_position`: position x/y/z and velocity vx/vy/vz. */
  datatype LocalPosition = LocalPosition(x: real, y: real, z: real, vx: real, vy: real, vz: real)

  /** `trajectory_setpoint`: the target position. */
  datatype TrajectorySetpoint = TrajectorySetpoint(position: Vec3)

  /** `vehicle_angular_velocity`: body rates in `xyz`. */
  datatype AngularVelocity = AngularVelocity(xyz: Vec3)

  /** `vehicle_attitude`: the orientation quaternion. */
  datatype Attitude = Attitude(q: Quaternion)

  /** The motor channels of `actuator_motors.control`; the message carries at least four. */
  type Channels = s: seq<real> | |s| >= 4 witness [0.0, 0.0, 0.0, 0.0]

  /** `actuator_motors`. */
  datatype ActuatorMotors = ActuatorMotors(control: Channels)

  /** `dataset_generator`: the one record published per tick. */
  datatype DatasetRecord = DatasetRecord(
    timestamp: nat,
    posErrX: real, posErrY: real, posErrZ: real,
    rotMat0: real, rotMat1: real, rotMat2: real, rotMat3: real, rotMat4: real, rotMat5: real,
    linVelX: real, linVelY: real, linVelZ: real,
    angVelX: real, angVelY: real, angVelZ: real,
    actuator0: real, actuator1: real, actuator2: real, actuator3: real)

  /**
   * What the five subscriptions see at one tick. For the four feeds polled on every enabled
   * tick, `Some` is the newest sample published since the previous tick (what `update()`
   * copies out), `None` that nothing new arrived. For the setpoint feed, `setpoint` is the
   * newest setpoint published since the previous tick; whether it is copied out this tick
   * depends on the position feed (see `Ticks.Step`).
   */
  datatype TickFeeds = TickFeeds(
    localPosition: Option<LocalPosition>,
    attitude: Option<Attitude>,
    angularVelocity: Option<AngularVelocity>,
    setpoint: Option<TrajectorySetpoint>,
    actuatorMotors: Option<ActuatorMotors>)
}
