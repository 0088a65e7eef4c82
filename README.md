# DatasetGenerator — a Dafny model

`DatasetGenerator` is a PX4 work-queue module. It samples five uORB topics and republishes one
merged `dataset_generator` record every 10 ms, for offline dataset collection:

- inputs: `vehicle_local_position`, `vehicle_attitude`, `vehicle_angular_velocity`,
  `trajectory_setpoint` and `actuator_motors`;
- output: one record of position error, rotation-matrix rows 0–1, linear velocity, angular
  velocity and actuators 0–3.

The module keeps a last-known-value cache of 19 scalars, all zero at construction. On each
tick, `update_vars` overwrites a group of cached fields only when that group's feed has a new
sample. The position error is recomputed only when a position sample and a trajectory setpoint
are both available in the same tick. The trajectory-setpoint subscription is polled only
inside the position branch, so a setpoint can wait there across ticks. `publish_dataset`
copies the cache into the record. `Run` is gated by the `USE_DS_GENERATOR` flag.

The model has these files:

- `wrappers.dfy`: `Option`.
- `topics.dfy`: the message shapes (`LocalPosition`, `Attitude`, …, `DatasetRecord`) and
  `TickFeeds`, which holds what the five subscriptions see at one tick.
- `sampler.dfy`: the cache as a value (`Snapshot`), the merge of one tick's samples
  (`Merge`), and the record it is published as (`Publish`, `SnapshotOf`).
- `config.dfy`: the enable flag after the parameter lookup.
- `ticks.dfy`: the `Run` gate as a function (`Step`, `Tick`) and runs of many ticks
  (`Steps`), with the properties that hold over whole runs.
- `generator.dfy`: the class `DatasetGenerator`. It has the source's 19 cached fields, the
  enable flag, the setpoint subscription's waiting sample and the schedule. Its methods update
  these in place, and each method is proved against the functions above.

Single-precision floats are modelled as `real`. Timestamps are a `nat` in microseconds.
The quaternion-to-DCM conversion of the `matrix` library is a parameter
`toDcm: Quaternion -> Matrix3`, and every property holds for any such conversion.

With the flag at 0, `Run` never publishes and never changes the cache; `Run` and `Ticks.Tick`
state this.

## Model

| member | source | states |
|---|---|---|
| `Config.EnableFlag` | src/modules/dataset_generator/DatasetGenerator.cpp:10-17 | the module is enabled unless the parameter exists and holds 0; a parameter that is missing, or whose value could not be read, leaves it enabled; a value that was read is used as the flag |
| `Generator.DatasetGenerator.constructor` | src/modules/dataset_generator/DatasetGenerator.hpp:47-72 | the flag is `EnableFlag` of the lookup (in-class default 1 before it); all 19 cached scalars are 0; no setpoint is waiting; nothing is scheduled |
| `Generator.DatasetGenerator.Init` | src/modules/dataset_generator/DatasetGenerator.cpp:165-169 | arms an immediate run and always returns true |
| `Generator.DatasetGenerator.UpdateVars` | src/modules/dataset_generator/DatasetGenerator.cpp:20-68 | the new cache is `Merge` of the old cache, the waiting setpoint and this tick's samples; the setpoint is taken exactly when a position sample arrived; it writes only cache fields and the setpoint subscription |
| `Generator.DatasetGenerator.UpdatePosition` | src/modules/dataset_generator/DatasetGenerator.cpp:28-38 | writes only pos_err, lin_vel and the setpoint subscription: lin_vel takes vx/vy/vz of a fresh position; pos_err is recomputed only if a setpoint was waiting; with no position sample nothing changes and the setpoint stays unread |
| `Generator.DatasetGenerator.UpdateAngularVelocity` | src/modules/dataset_generator/DatasetGenerator.cpp:40-44 | writes only ang_vel: `xyz` of a fresh sample, otherwise unchanged |
| `Generator.DatasetGenerator.UpdateActuators` | src/modules/dataset_generator/DatasetGenerator.cpp:46-51 | writes only actuator_0..3: channels 0–3 of a fresh sample, otherwise unchanged |
| `Generator.DatasetGenerator.UpdateAttitude` | src/modules/dataset_generator/DatasetGenerator.cpp:53-67 | writes only rot_mat_0..5: rows 0 and 1 of the DCM of a fresh quaternion, otherwise unchanged |
| `Generator.DatasetGenerator.PublishDataset` | src/modules/dataset_generator/DatasetGenerator.cpp:70-100 | changes nothing; the record carries the given timestamp and its 19 data fields read back as exactly the cache |
| `Generator.DatasetGenerator.Run` | src/modules/dataset_generator/DatasetGenerator.cpp:102-114 | flag 0: cache unchanged, nothing published, schedule cleared; otherwise the merged cache is published and the next run is set 10 ms later; the new state and record are those of `Ticks.Tick` |
| `Sampler.PositionError` | src/modules/dataset_generator/DatasetGenerator.cpp:30-32 | adding the error to the vehicle position gives the setpoint position, on each axis |
| `Sampler.FirstFour` | src/modules/dataset_generator/DatasetGenerator.cpp:47-50 | the four cached actuator values are exactly channels 0–3 |
| `Sampler.Merge` | src/modules/dataset_generator/DatasetGenerator.cpp:20-68 | each group is carried forward when its feed has nothing new and overwritten from its own feed when it has; pos_err changes only when a position sample and a setpoint meet; lin_vel follows every position sample; rot_mat comes from DCM rows 0–1 only |
| `Sampler.SetpointAfterPoll` | src/modules/dataset_generator/DatasetGenerator.cpp:28-29 | the setpoint subscription is emptied exactly when a position sample arrived; otherwise a waiting setpoint is kept |
| `Sampler.ExtraChannelsIgnored` | src/modules/dataset_generator/DatasetGenerator.cpp:46-51 | two actuator samples that agree on channels 0–3 give the same cache; channel 4 and up never matter |
| `Sampler.Publish` | src/modules/dataset_generator/DatasetGenerator.cpp:72-97 | the record has the given timestamp, and its data fields read back as the cache it came from |
| `Sampler.PublishComplete` | src/modules/dataset_generator/DatasetGenerator.cpp:72-97 | a record is fully determined by its timestamp and its 19 data fields, so publishing hides nothing and adds nothing |
| `Ticks.Deliver` | src/modules/dataset_generator/DatasetGenerator.cpp:29 | a setpoint published since the previous tick replaces one still waiting; with none published the waiting one is kept unchanged; one is waiting iff either exists |
| `Ticks.Step` | src/modules/dataset_generator/DatasetGenerator.cpp:104-110 | with flag 0 a tick leaves the cache unchanged |
| `Ticks.Tick` | src/modules/dataset_generator/DatasetGenerator.cpp:102-114 | a record is published iff the flag is non-zero, and it is the merged cache stamped with the tick's time; flag 0 keeps the cache and clears the schedule; otherwise the next run is 10 ms later |
| `Ticks.Steps` | src/modules/dataset_generator/DatasetGenerator.cpp:104-107 | a disabled module keeps its cache over any number of ticks |
| `Ticks.CacheHoldsLatest` | src/modules/dataset_generator/DatasetGenerator.cpp:35-67 | on an enabled module, over any run of ticks, lin_vel, ang_vel, actuator_0..3 and rot_mat_0..5 hold the newest sample of their own feed (rot_mat as DCM rows 0–1 of the newest quaternion), or their starting value if the feed delivered nothing |
| `Ticks.WaitingOrigin` | src/modules/dataset_generator/DatasetGenerator.cpp:28-29 | on an enabled module starting with no setpoint waiting (as after construction), a setpoint still waiting after a run is the newest one published since the last position sample |
| `Ticks.WaitingIsHeld` | src/modules/dataset_generator/DatasetGenerator.cpp:28-29 | conversely, on an enabled module, a setpoint published after the last position sample and not replaced is the one waiting |
| `Ticks.PositionErrorOrigin` | src/modules/dataset_generator/DatasetGenerator.cpp:28-33 | on an enabled module starting with no setpoint waiting (as after construction), pos_err is its starting value or a setpoint minus the first position sample after that setpoint, with no newer setpoint in between |
| `Ticks.ConsumedAtLastTick` | src/modules/dataset_generator/DatasetGenerator.cpp:28-33 | on an enabled module, a setpoint left waiting by ticks without a position sample is used by the next position sample: pos_err becomes that setpoint minus that position, and the subscription is emptied |
| `Ticks.PositionErrorStaleWithoutSetpoints` | src/modules/dataset_generator/DatasetGenerator.cpp:29-33 | on an enabled module starting with no setpoint waiting (as after construction), while no setpoint is published, pos_err keeps its value however many position samples arrive |
| `Ticks.RowTwoNeverStored` | src/modules/dataset_generator/DatasetGenerator.cpp:58-66 | two quaternion-to-DCM conversions that agree on rows 0 and 1 give identical states over every run, so row 2 never reaches the cache or the record |

## Left out

- The uORB transport, `Subscription::update` and `Publication::publish`, is not modelled.
  Each tick's samples are a `TickFeeds` value, with one field for each of the five
  subscriptions. The published record is returned.
- For the trajectory-setpoint subscription, only "newest unread sample" is modelled
  (`setpointUnread`, `Ticks.Deliver`). Its generation counters and queue are not.
- `param_find` and `param_get` are replaced by a `ParamLookup` value given to the constructor.
  The `PX4_ERR` log line is left out.
- `matrix::Quatf` and `matrix::Dcmf` are foreign code, so the conversion is a parameter.
  Claims such as "the identity quaternion gives identity rows" cannot be stated from this code.
- `hrt_absolute_time()` is the `now` input. Monotonic timestamps about 10 ms apart are not
  modelled.
- `ScheduleNow`, `ScheduleDelayed` and `ScheduleClear` are modelled only as the `Schedule`
  value they leave behind. Real timing, the work queue and concurrency are not modelled.
- `task_spawn`, `custom_command`, `print_usage` and `dataset_generator_main` are CLI and
  lifecycle plumbing. They are not modelled.
- IEEE-754 single-precision rounding, for example in the subtraction at
  `DatasetGenerator.cpp:30-32`, is not modelled: values are reals.
- C++ access control (`private`) has no counterpart here. After construction, the cache fields
  are written only by the four per-feed methods, which `UpdateVars` calls and `Run` calls in
  turn. Dafny does not stop other code from assigning these public fields.
- The message layouts beyond the fields the module touches are not modelled. The
  `actuator_motors` message is assumed to carry at least four channels.
- Ticks.PositionErrorOrigin: it names a consuming (setpoint, position) pair. It does not say
  that this is the latest such pair. `Ticks.ConsumedAtLastTick` covers the latest tick.
