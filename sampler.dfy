/**
 * The last-known-value cache of the dataset generator as a value, how one tick's feed
 * samples are merged into it (`update_vars`) and how it is copied into the published
 * record (`publish_dataset`).
 */
module Sampler {
  import opened Wrappers
  import opened Topics

  /** The six stored direction-cosine entries: rot_mat_0..2 are row 0, rot_mat_3..5 row 1. */
  datatype RotRows = RotRows(row0: Vec3, row1: Vec3)

  /** actuator_0..3. */
  datatype Actuators = Actuators(a0: real, a1: real, a2: real, a3: real)

  /** The 19 cached scalars, grouped by the feed that writes them. */
  datatype Snapshot = Snapshot(
    posErr: Vec3,
    rotMat: RotRows,
    linVel: Vec3,
    angVel: Vec3,
    actuator: Actuators)

  const Zero3: Vec3 := Vec3(0.0, 0.0, 0.0)

  /** Every cached scalar starts at zero. */
  const ZeroSnapshot: Snapshot :=
    Snapshot(Zero3, RotRows(Zero3, Zero3), Zero3, Zero3, Actuators(0.0, 0.0, 0.0, 0.0))

  /** Setpoint position minus vehicle position, axis by axis. */
  function PositionError(sp: TrajectorySetpoint, lp: LocalPosition): (e: Vec3)
    ensures lp.x + e.x == sp.position.x
    ensures lp.y + e.y == sp.position.y
    ensures lp.z + e.z == sp.position.z
  {
    Vec3(sp.position.x - lp.x, sp.position.y - lp.y, sp.position.z - lp.z)
  }

  function Velocity(lp: LocalPosition): Vec3 {
    Vec3(lp.vx, lp.vy, lp.vz)
  }

  /** Rows 0 and 1 of a direction-cosine matrix; row 2 is dropped. */
  function TopRows(m: Matrix3): RotRows {
    RotRows(m.row0, m.row1)
  }

  /** Exactly the first four motor channels. */
  function FirstFour(c: Channels): (a: Actuators)
    ensures [a.a0, a.a1, a.a2, a.a3] == c[..4]
  {
    Actuators(c[0], c[1], c[2], c[3])
  }

  /**
   * The position branch: a fresh position always refreshes the linear velocity, and also
   * the position error when a setpoint is copied out in the same tick (`unread`).
   */
  function WithPosition(c: Snapshot, unread: Option<TrajectorySetpoint>, lp: Option<LocalPosition>): Snapshot {
    match lp
    case None => c
    case Some(p) =>
      c.(posErr := if unread.Some? then PositionError(unread.value, p) else c.posErr,
         linVel := Velocity(p))
  }

  function WithAngularVelocity(c: Snapshot, av: Option<AngularVelocity>): Snapshot {
    match av
    case None => c
    case Some(v) => c.(angVel := v.xyz)
  }

  function WithActuators(c: Snapshot, am: Option<ActuatorMotors>): Snapshot {
    match am
    case None => c
    case Some(m) => c.(actuator := FirstFour(m.control))
  }

  function WithAttitude(c: Snapshot, att: Option<Attitude>, toDcm: Quaternion -> Matrix3): Snapshot {
    match att
    case None => c
    case Some(a) => c.(rotMat := TopRows(toDcm(a.q)))
  }

  /**
   * One `update_vars` call: the feeds in the order `update_vars` checks them. `unread` is the setpoint the
   * setpoint subscription would hand out if polled. Each group of the cache is either
   * carried forward (its feed has nothing new) or overwritten from its own feed alone;
   * no group is written from another feed.
   */
  function Merge(c: Snapshot, unread: Option<TrajectorySetpoint>, f: TickFeeds,
                 toDcm: Quaternion -> Matrix3): (r: Snapshot)
    ensures f.localPosition.None? ==> r.posErr == c.posErr && r.linVel == c.linVel
    ensures f.localPosition.Some? ==> r.linVel == Velocity(f.localPosition.value)
    ensures f.localPosition.Some? && unread.Some? ==>
              r.posErr == PositionError(unread.value, f.localPosition.value)
    ensures unread.None? ==> r.posErr == c.posErr
    ensures r.angVel == if f.angularVelocity.Some? then f.angularVelocity.value.xyz else c.angVel
    ensures r.actuator == if f.actuatorMotors.Some? then FirstFour(f.actuatorMotors.value.control) else c.actuator
    ensures r.rotMat == if f.attitude.Some? then TopRows(toDcm(f.attitude.value.q)) else c.rotMat
  {
    var afterPosition := WithPosition(c, unread, f.localPosition);
    var afterRates := WithAngularVelocity(afterPosition, f.angularVelocity);
    var afterMotors := WithActuators(afterRates, f.actuatorMotors);
    WithAttitude(afterMotors, f.attitude, toDcm)
  }

  /**
   * The setpoint subscription after `update_vars`: it is polled, and so emptied, exactly
   * when the position feed is fresh; otherwise a waiting setpoint stays for a later tick.
   */
  function SetpointAfterPoll(unread: Option<TrajectorySetpoint>, lp: Option<LocalPosition>): (r: Option<TrajectorySetpoint>)
    ensures r.None? <==> lp.Some? || unread.None?
    ensures r.Some? ==> r == unread
  {
    if lp.Some? then None else unread
  }

  /** Two feed ticks that differ only in motor channels 4 and up merge to the same cache. */
  lemma ExtraChannelsIgnored(c: Snapshot, unread: Option<TrajectorySetpoint>, f: TickFeeds,
                             c1: Channels, c2: Channels, toDcm: Quaternion -> Matrix3)
    requires c1[..4] == c2[..4]
    ensures Merge(c, unread, f.(actuatorMotors := Some(ActuatorMotors(c1))), toDcm)
         == Merge(c, unread, f.(actuatorMotors := Some(ActuatorMotors(c2))), toDcm)
  {
  }

  /** The record `publish_dataset` emits: the timestamp and all 19 cached scalars verbatim. */
  function Publish(c: Snapshot, now: nat): (m: DatasetRecord)
    ensures m.timestamp == now
    ensures SnapshotOf(m) == c
  {
    DatasetRecord(
      now,
      c.posErr.x, c.posErr.y, c.posErr.z,
      c.rotMat.row0.x, c.rotMat.row0.y, c.rotMat.row0.z,
      c.rotMat.row1.x, c.rotMat.row1.y, c.rotMat.row1.z,
      c.linVel.x, c.linVel.y, c.linVel.z,
      c.angVel.x, c.angVel.y, c.angVel.z,
      c.actuator.a0, c.actuator.a1, c.actuator.a2, c.actuator.a3)
  }

  /** The 19 data fields of a record, read back as a cache. */
  function SnapshotOf(m: DatasetRecord): Snapshot {
    Snapshot(
      Vec3(m.posErrX, m.posErrY, m.posErrZ),
      RotRows(Vec3(m.rotMat0, m.rotMat1, m.rotMat2), Vec3(m.rotMat3, m.rotMat4, m.rotMat5)),
      Vec3(m.linVelX, m.linVelY, m.linVelZ),
      Vec3(m.angVelX, m.angVelY, m.angVelZ),
      Actuators(m.actuator0, m.actuator1, m.actuator2, m.actuator3))
  }

  /** A record holds nothing beyond its timestamp and the cache it was built from. */
  lemma PublishComplete(m: DatasetRecord)
    ensures Publish(SnapshotOf(m), m.timestamp) == m
  {
  }
}
