/**
 * The `DatasetGenerator` work item: the enable flag, the 19 cached scalars updated in
 * place, the setpoint subscription's waiting sample and the work-queue schedule.
 */
module Generator {
  import opened Wrappers
  import opened Topics
  import opened Sampler
  import opened Config
  import opened Ticks

  class DatasetGenerator {
    var useDsGenerator: int

    var lastPosErrX: real
    var lastPosErrY: real
    var lastPosErrZ: real

    var lastRotMat0: real
    var lastRotMat1: real
    var lastRotMat2: real
    var lastRotMat3: real
    var lastRotMat4: real
    var lastRotMat5: real

    var lastLinVelX: real
    var lastLinVelY: real
    var lastLinVelZ: real

    var lastAngVelX: real
    var lastAngVelY: real
    var lastAngVelZ: real

    var lastActuator0: real
    var lastActuator1: real
    var lastActuator2: real
    var lastActuator3: real

    /** The newest trajectory setpoint published and not yet copied out by this module. */
    var setpointUnread: Option<TrajectorySetpoint>

    var schedule: Schedule

    /** The cached scalars as a value, one group per feed. */
    function Cache(): Snapshot
      reads this`lastPosErrX, this`lastPosErrY, this`lastPosErrZ
      reads this`lastRotMat0, this`lastRotMat1, this`lastRotMat2
      reads this`lastRotMat3, this`lastRotMat4, this`lastRotMat5
      reads this`lastLinVelX, this`lastLinVelY, this`lastLinVelZ
      reads this`lastAngVelX, this`lastAngVelY, this`lastAngVelZ
      reads this`lastActuator0, this`lastActuator1, this`lastActuator2, this`lastActuator3
    {
      Snapshot(PosErr(), RotMat(), LinVel(), AngVel(), Actuator())
    }

    function PosErr(): Vec3
      reads this`lastPosErrX, this`lastPosErrY, this`lastPosErrZ
    {
      Vec3(lastPosErrX, lastPosErrY, lastPosErrZ)
    }

    function RotMat(): RotRows
      reads this`lastRotMat0, this`lastRotMat1, this`lastRotMat2
      reads this`lastRotMat3, this`lastRotMat4, this`lastRotMat5
    {
      RotRows(Vec3(lastRotMat0, lastRotMat1, lastRotMat2), Vec3(lastRotMat3, lastRotMat4, lastRotMat5))
    }

    function LinVel(): Vec3
      reads this`lastLinVelX, this`lastLinVelY, this`lastLinVelZ
    {
      Vec3(lastLinVelX, lastLinVelY, lastLinVelZ)
    }

    function AngVel(): Vec3
      reads this`lastAngVelX, this`lastAngVelY, this`lastAngVelZ
    {
      Vec3(lastAngVelX, lastAngVelY, lastAngVelZ)
    }

    function Actuator(): Actuators
      reads this`lastActuator0, this`lastActuator1, this`lastActuator2, this`lastActuator3
    {
      Actuators(lastActuator0, lastActuator1, lastActuator2, lastActuator3)
    }

    function State(): TickState
      reads this
    {
      TickState(Cache(), setpointUnread)
    }

    /** All scalars start at zero; the enable flag comes from the `USE_DS_GENERATOR` lookup. */
    constructor (lookup: ParamLookup)
      ensures useDsGenerator == EnableFlag(lookup)
      ensures Cache() == ZeroSnapshot && State() == InitialState
      ensures schedule == Unscheduled
    {
      useDsGenerator := DefaultUseDsGenerator;
      lastPosErrX, lastPosErrY, lastPosErrZ := 0.0, 0.0, 0.0;
      lastRotMat0, lastRotMat1, lastRotMat2 := 0.0, 0.0, 0.0;
      lastRotMat3, lastRotMat4, lastRotMat5 := 0.0, 0.0, 0.0;
      lastLinVelX, lastLinVelY, lastLinVelZ := 0.0, 0.0, 0.0;
      lastAngVelX, lastAngVelY, lastAngVelZ := 0.0, 0.0, 0.0;
      lastActuator0, lastActuator1, lastActuator2, lastActuator3 := 0.0, 0.0, 0.0, 0.0;
      setpointUnread := None;
      schedule := Unscheduled;
      match lookup {
        case Found(stored) =>
          if stored.Some? {
            useDsGenerator := stored.value;
          }
        case NotFound =>
          useDsGenerator := 1;
      }
    }

    /** Arms an immediate first run; never fails. */
    method Init() returns (ok: bool)
      modifies this`schedule
      ensures ok && schedule == Immediate
    {
      schedule := Immediate;
      ok := true;
    }

    /**
     * `update_vars`: the four feed branches in the order `update_vars` checks them. Each branch writes only
     * its own group of fields (its `modifies` clause); the setpoint subscription is polled
     * only inside the position branch.
     */
    method UpdateVars(f: TickFeeds, toDcm: Quaternion -> Matrix3)
      modifies this`lastPosErrX, this`lastPosErrY, this`lastPosErrZ
      modifies this`lastRotMat0, this`lastRotMat1, this`lastRotMat2
      modifies this`lastRotMat3, this`lastRotMat4, this`lastRotMat5
      modifies this`lastLinVelX, this`lastLinVelY, this`lastLinVelZ
      modifies this`lastAngVelX, this`lastAngVelY, this`lastAngVelZ
      modifies this`lastActuator0, this`lastActuator1, this`lastActuator2, this`lastActuator3
      modifies this`setpointUnread
      ensures Cache() == Merge(old(Cache()), old(setpointUnread), f, toDcm)
      ensures setpointUnread == SetpointAfterPoll(old(setpointUnread), f.localPosition)
    {
      ghost var c0 := Cache();
      UpdatePosition(f.localPosition);
      ghost var c1 := Cache();
      assert c1 == WithPosition(c0, old(setpointUnread), f.localPosition);
      UpdateAngularVelocity(f.angularVelocity);
      ghost var c2 := Cache();
      assert c2 == WithAngularVelocity(c1, f.angularVelocity);
      UpdateActuators(f.actuatorMotors);
      ghost var c3 := Cache();
      assert c3 == WithActuators(c2, f.actuatorMotors);
      UpdateAttitude(f.attitude, toDcm);
      assert Cache() == WithAttitude(c3, f.attitude, toDcm);
    }

    /**
     * A fresh position always refreshes the linear velocity; it also polls the setpoint
     * subscription and, if a setpoint is waiting, takes it and refreshes the position error.
     */
    method UpdatePosition(lp: Option<LocalPosition>)
      modifies this`lastPosErrX, this`lastPosErrY, this`lastPosErrZ
      modifies this`lastLinVelX, this`lastLinVelY, this`lastLinVelZ
      modifies this`setpointUnread
      ensures PosErr() == WithPosition(old(Cache()), old(setpointUnread), lp).posErr
      ensures LinVel() == WithPosition(old(Cache()), old(setpointUnread), lp).linVel
      ensures setpointUnread == SetpointAfterPoll(old(setpointUnread), lp)
    {
      ghost var waiting := SetpointAfterPoll(setpointUnread, lp);
      if lp.Some? {
        var localPosition := lp.value;
        if setpointUnread.Some? {
          var setpoint := setpointUnread.value;
          setpointUnread := None;
          lastPosErrX, lastPosErrY, lastPosErrZ :=
            setpoint.position.x - localPosition.x,
            setpoint.position.y - localPosition.y,
            setpoint.position.z - localPosition.z;
        }
        lastLinVelX, lastLinVelY, lastLinVelZ := localPosition.vx, localPosition.vy, localPosition.vz;
      }
      assert setpointUnread == waiting;
    }

    method UpdateAngularVelocity(av: Option<AngularVelocity>)
      modifies this`lastAngVelX, this`lastAngVelY, this`lastAngVelZ
      ensures AngVel() == WithAngularVelocity(old(Cache()), av).angVel
    {
      if av.Some? {
        var angularVelocity := av.value;
        lastAngVelX := angularVelocity.xyz.x;
        lastAngVelY := angularVelocity.xyz.y;
        lastAngVelZ := angularVelocity.xyz.z;
      }
    }

    /** Copies motor channels 0 to 3; no higher channel is read. */
    method UpdateActuators(am: Option<ActuatorMotors>)
      modifies this`lastActuator0, this`lastActuator1, this`lastActuator2, this`lastActuator3
      ensures Actuator() == WithActuators(old(Cache()), am).actuator
    {
      if am.Some? {
        var control := am.value.control;
        lastActuator0 := control[0];
        lastActuator1 := control[1];
        lastActuator2 := control[2];
        lastActuator3 := control[3];
      }
    }

    /** Converts the quaternion and keeps rows 0 and 1 of the matrix; row 2 is dropped. */
    method UpdateAttitude(att: Option<Attitude>, toDcm: Quaternion -> Matrix3)
      modifies this`lastRotMat0, this`lastRotMat1, this`lastRotMat2
      modifies this`lastRotMat3, this`lastRotMat4, this`lastRotMat5
      ensures RotMat() == WithAttitude(old(Cache()), att, toDcm).rotMat
    {
      if att.Some? {
        var r := toDcm(att.value.q);
        lastRotMat0 := r.row0.x;
        lastRotMat1 := r.row0.y;
        lastRotMat2 := r.row0.z;
        lastRotMat3 := r.row1.x;
        lastRotMat4 := r.row1.y;
        lastRotMat5 := r.row1.z;
      }
    }

    /** `publish_dataset`: the record carries `now` and every cached scalar unchanged. */
    method PublishDataset(now: nat) returns (msg: DatasetRecord)
      ensures msg.timestamp == now
      ensures SnapshotOf(msg) == Cache()
    {
      msg := DatasetRecord(
        now,
        lastPosErrX, lastPosErrY, lastPosErrZ,
        lastRotMat0, lastRotMat1, lastRotMat2, lastRotMat3, lastRotMat4, lastRotMat5,
        lastLinVelX, lastLinVelY, lastLinVelZ,
        lastAngVelX, lastAngVelY, lastAngVelZ,
        lastActuator0, lastActuator1, lastActuator2, lastActuator3);
    }

    /**
     * `Run`, one tick: `f` is what the feeds hold, `now` the clock. A setpoint published
     * since the previous tick reaches the subscription first, whether or not it is polled.
     */
    method Run(f: TickFeeds, toDcm: Quaternion -> Matrix3, now: nat) returns (published: Option<DatasetRecord>)
      modifies this`lastPosErrX, this`lastPosErrY, this`lastPosErrZ
      modifies this`lastRotMat0, this`lastRotMat1, this`lastRotMat2
      modifies this`lastRotMat3, this`lastRotMat4, this`lastRotMat5
      modifies this`lastLinVelX, this`lastLinVelY, this`lastLinVelZ
      modifies this`lastAngVelX, this`lastAngVelY, this`lastAngVelZ
      modifies this`lastActuator0, this`lastActuator1, this`lastActuator2, this`lastActuator3
      modifies this`setpointUnread, this`schedule
      ensures useDsGenerator == 0 ==> Cache() == old(Cache()) && published.None? && schedule == Unscheduled
      ensures useDsGenerator != 0 ==> published.Some? && SnapshotOf(published.value) == Cache()
                                      && schedule == Delayed(RunIntervalUs)
      ensures var o := Tick(useDsGenerator, old(State()), f, toDcm, now);
              State() == o.state && published == o.published && schedule == o.schedule
    {
      ghost var before := State();
      setpointUnread := Deliver(setpointUnread, f.setpoint);
      if useDsGenerator == 0 {
        schedule := Unscheduled;
        return None;
      }
      UpdateVars(f, toDcm);
      assert State() == Step(useDsGenerator, before, f, toDcm);
      var msg := PublishDataset(now);
      published := Some(msg);
      schedule := Delayed(RunIntervalUs);
    }
  }
}
