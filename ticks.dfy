/**
 * The `Run` gate as a function of the module's state, and what a whole run of ticks does
 * to the cache: every group holds the newest value its feed delivered, the position error
 * pairs a vehicle position with the setpoint waiting for it, and a disabled module never
 * changes its cache.
 */
module Ticks {
  import opened Wrappers
  import opened Topics
  import opened Sampler

  /** The work-queue item's schedule: nothing pending, run now, or run after a delay. */
  datatype Schedule = Unscheduled | Immediate | Delayed(us: nat)

  /** `ScheduleDelayed(10_ms)`, in microseconds. */
  const RunIntervalUs: nat := 10_000

  /** The cache plus the setpoint subscription's newest sample not yet copied out. */
  datatype TickState = TickState(cache: Snapshot, setpointUnread: Option<TrajectorySetpoint>)

  /** The state right after construction. */
  const InitialState: TickState := TickState(ZeroSnapshot, None)

  /** A setpoint published since the previous tick replaces one still waiting. */
  function Deliver(unread: Option<TrajectorySetpoint>, arrived: Option<TrajectorySetpoint>): (r: Option<TrajectorySetpoint>)
    ensures r.None? <==> unread.None? && arrived.None?
    ensures arrived.Some? ==> r == arrived
    ensures arrived.None? ==> r == unread
  {
    if arrived.Some? then arrived else unread
  }

  /**
   * The state after one `Run`. Setpoints published since the previous tick reach the
   * subscription whether or not it is polled; a disabled module touches nothing else.
   */
  function Step(flag: int, s: TickState, f: TickFeeds, toDcm: Quaternion -> Matrix3): (r: TickState)
    ensures flag == 0 ==> r.cache == s.cache
  {
    var unread := Deliver(s.setpointUnread, f.setpoint);
    if flag == 0 then TickState(s.cache, unread)
    else TickState(Merge(s.cache, unread, f, toDcm), SetpointAfterPoll(unread, f.localPosition))
  }

  /** What one `Run` leaves behind: the new state, the record it published, the schedule. */
  datatype Outcome = Outcome(state: TickState, published: Option<DatasetRecord>, schedule: Schedule)

  /**
   * `Run`: with the flag at 0 it clears the schedule and publishes nothing; otherwise it
   * merges, publishes the merged cache stamped `now`, and re-arms 10 ms later.
   */
  function Tick(flag: int, s: TickState, f: TickFeeds, toDcm: Quaternion -> Matrix3, now: nat): (o: Outcome)
    ensures o.published.Some? <==> flag != 0
    ensures o.published.Some? ==> SnapshotOf(o.published.value) == o.state.cache
                                  && o.published.value.timestamp == now
    ensures flag == 0 ==> o.state.cache == s.cache && o.schedule == Unscheduled
    ensures flag != 0 ==> o.schedule == Delayed(RunIntervalUs)
    ensures o.state == Step(flag, s, f, toDcm)
  {
    var next := Step(flag, s, f, toDcm);
    if flag == 0 then Outcome(next, None, Unscheduled)
    else Outcome(next, Some(Publish(next.cache, now)), Delayed(RunIntervalUs))
  }

  /** The state after running the ticks of `fs` in order, starting from `s`. */
  function Steps(flag: int, s: TickState, fs: seq<TickFeeds>, toDcm: Quaternion -> Matrix3): (r: TickState)
    ensures flag == 0 ==> r.cache == s.cache
    decreases |fs|
  {
    if fs == [] then s
    else Step(flag, Steps(flag, s, fs[..|fs| - 1], toDcm), fs[|fs| - 1], toDcm)
  }

  /** The newest observation `obs` makes of the ticks of `fs`, if any. */
  function Latest<T>(fs: seq<TickFeeds>, obs: TickFeeds -> Option<T>): Option<T>
    decreases |fs|
  {
    if fs == [] then None
    else if obs(fs[|fs| - 1]).Some? then obs(fs[|fs| - 1])
    else Latest(fs[..|fs| - 1], obs)
  }

  function VelocitySeen(f: TickFeeds): Option<Vec3> {
    match f.localPosition
    case Some(p) => Some(Velocity(p))
    case None => None
  }

  function RatesSeen(f: TickFeeds): Option<Vec3> {
    match f.angularVelocity
    case Some(v) => Some(v.xyz)
    case None => None
  }

  function MotorsSeen(f: TickFeeds): Option<Actuators> {
    match f.actuatorMotors
    case Some(m) => Some(FirstFour(m.control))
    case None => None
  }

  function QuaternionSeen(f: TickFeeds): Option<Quaternion> {
    match f.attitude
    case Some(a) => Some(a.q)
    case None => None
  }

  /**
   * On an enabled module, the linear velocity, angular velocity, actuator and rotation
   * groups always hold the newest sample their own feed delivered (the rotation rows of
   * the newest quaternion), or their starting value if that feed has delivered nothing.
   */
  lemma {:induction false} CacheHoldsLatest(flag: int, s: TickState, fs: seq<TickFeeds>, toDcm: Quaternion -> Matrix3)
    requires flag != 0
    ensures var c := Steps(flag, s, fs, toDcm).cache;
            && c.linVel == Latest(fs, VelocitySeen).GetOr(s.cache.linVel)
            && c.angVel == Latest(fs, RatesSeen).GetOr(s.cache.angVel)
            && c.actuator == Latest(fs, MotorsSeen).GetOr(s.cache.actuator)
            && c.rotMat == (match Latest(fs, QuaternionSeen)
                            case Some(q) => TopRows(toDcm(q))
                            case None => s.cache.rotMat)
    decreases |fs|
  {
    if fs != [] {
      CacheHoldsLatest(flag, s, fs[..|fs| - 1], toDcm);
    }
  }

  /** The setpoint published at tick `j` is the one copied out by the position sample of tick `i`. */
  ghost predicate Consumed(fs: seq<TickFeeds>, j: int, i: int) {
    && 0 <= j <= i < |fs|
    && fs[j].setpoint.Some?
    && fs[i].localPosition.Some?
    && (forall k :: j <= k < i ==> fs[k].localPosition.None?)
    && (forall k :: j < k <= i ==> fs[k].setpoint.None?)
  }

  /** The setpoint published at tick `j` is still waiting in the subscription after `fs`. */
  ghost predicate Waiting(fs: seq<TickFeeds>, j: int) {
    && 0 <= j < |fs|
    && fs[j].setpoint.Some?
    && (forall k :: j <= k < |fs| ==> fs[k].localPosition.None?)
    && (forall k :: j < k < |fs| ==> fs[k].setpoint.None?)
  }

  /**
   * On an enabled module starting with no setpoint waiting, a waiting setpoint is the
   * newest one published since the last position sample.
   */
  lemma {:induction false} WaitingOrigin(flag: int, s: TickState, fs: seq<TickFeeds>, toDcm: Quaternion -> Matrix3)
    requires flag != 0 && s.setpointUnread.None?
    ensures var r := Steps(flag, s, fs, toDcm);
            r.setpointUnread.None? || exists j :: Waiting(fs, j) && r.setpointUnread == fs[j].setpoint
    decreases |fs|
  {
    if fs != [] {
      var n := |fs|;
      var prefix := fs[..n - 1];
      WaitingOrigin(flag, s, prefix, toDcm);
      var before := Steps(flag, s, prefix, toDcm);
      var r := Steps(flag, s, fs, toDcm);
      if r.setpointUnread.Some? {
        if fs[n - 1].setpoint.Some? {
          assert Waiting(fs, n - 1);
        } else {
          var j :| Waiting(prefix, j) && before.setpointUnread == prefix[j].setpoint;
          assert Waiting(fs, j);
        }
      }
    }
  }

  /**
   * Where a position error comes from, on an enabled module starting with no setpoint
   * waiting: it is the starting value, or the setpoint published at some tick `j` minus
   * the position of the first position sample `i` after it, with no newer setpoint in
   * between.
   */
  lemma {:induction false} PositionErrorOrigin(flag: int, s: TickState, fs: seq<TickFeeds>, toDcm: Quaternion -> Matrix3)
    requires flag != 0 && s.setpointUnread.None?
    ensures var e := Steps(flag, s, fs, toDcm).cache.posErr;
            || e == s.cache.posErr
            || exists j, i :: Consumed(fs, j, i) && e == PositionError(fs[j].setpoint.value, fs[i].localPosition.value)
    decreases |fs|
  {
    if fs != [] {
      var n := |fs|;
      var prefix := fs[..n - 1];
      var last := fs[n - 1];
      PositionErrorOrigin(flag, s, prefix, toDcm);
      var before := Steps(flag, s, prefix, toDcm);
      var unread := Deliver(before.setpointUnread, last.setpoint);
      if last.localPosition.Some? && unread.Some? {
        // this tick consumes a setpoint
        if last.setpoint.Some? {
          assert Consumed(fs, n - 1, n - 1);
        } else {
          WaitingOrigin(flag, s, prefix, toDcm);
          var j :| Waiting(prefix, j) && before.setpointUnread == prefix[j].setpoint;
          assert Consumed(fs, j, n - 1);
        }
      } else if before.cache.posErr != s.cache.posErr {
        // the prefix's position error survives
        var j, i :| Consumed(prefix, j, i)
                    && before.cache.posErr == PositionError(prefix[j].setpoint.value, prefix[i].localPosition.value);
        assert Consumed(fs, j, i);
      }
    }
  }

  /** A setpoint waiting after `fs` is the one the subscription holds. */
  lemma {:induction false} WaitingIsHeld(flag: int, s: TickState, fs: seq<TickFeeds>, toDcm: Quaternion -> Matrix3, j: int)
    requires flag != 0 && Waiting(fs, j)
    ensures Steps(flag, s, fs, toDcm).setpointUnread == fs[j].setpoint
    decreases |fs|
  {
    var n := |fs|;
    if j < n - 1 {
      assert Waiting(fs[..n - 1], j);
      WaitingIsHeld(flag, s, fs[..n - 1], toDcm, j);
    }
  }

  /**
   * A setpoint left unread by ticks without a position sample is used by the next tick
   * that has one: its position error is that setpoint minus that position, and the
   * subscription is emptied.
   */
  lemma ConsumedAtLastTick(flag: int, s: TickState, fs: seq<TickFeeds>, toDcm: Quaternion -> Matrix3, j: int)
    requires flag != 0 && |fs| > 0 && Consumed(fs, j, |fs| - 1)
    ensures var r := Steps(flag, s, fs, toDcm);
            && r.cache.posErr == PositionError(fs[j].setpoint.value, fs[|fs| - 1].localPosition.value)
            && r.setpointUnread.None?
  {
    var n := |fs|;
    if j < n - 1 {
      assert Waiting(fs[..n - 1], j);
      WaitingIsHeld(flag, s, fs[..n - 1], toDcm, j);
    }
  }

  /**
   * The stale position error: while no setpoint is published, the position error keeps
   * its value however many position samples arrive.
   */
  lemma PositionErrorStaleWithoutSetpoints(flag: int, s: TickState, fs: seq<TickFeeds>, toDcm: Quaternion -> Matrix3)
    requires flag != 0 && s.setpointUnread.None?
    requires forall k :: 0 <= k < |fs| ==> fs[k].setpoint.None?
    ensures Steps(flag, s, fs, toDcm).cache.posErr == s.cache.posErr
  {
    PositionErrorOrigin(flag, s, fs, toDcm);
  }

  /**
   * Row 2 of the direction-cosine matrix never reaches the state: two conversions that
   * agree on rows 0 and 1 give the same states on every run of ticks.
   */
  lemma {:induction false} RowTwoNeverStored(flag: int, s: TickState, fs: seq<TickFeeds>,
                                             dcm1: Quaternion -> Matrix3, dcm2: Quaternion -> Matrix3)
    requires forall q :: TopRows(dcm1(q)) == TopRows(dcm2(q))
    ensures Steps(flag, s, fs, dcm1) == Steps(flag, s, fs, dcm2)
    decreases |fs|
  {
    if fs != [] {
      RowTwoNeverStored(flag, s, fs[..|fs| - 1], dcm1, dcm2);
    }
  }
}
