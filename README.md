# Dead-reckoning odometry of the Arduino motor node

This project models the odometry node of scripts/message_filter.py. The node
receives one flat numeric array per sample from the Arduino:

| index | meaning |
|---|---|
| 0 | linear velocity |
| 1 | angular velocity |
| 2 | cumulative left encoder reading |
| 3 | cumulative right encoder reading |
| 4 | distance travelled per encoder tick |
| 5 | wheel base |

For each sample, `Odometry_Publisher.arduino_callback` does the following:

- It computes each wheel's increment against the stored readings (`leftEncOld`, `rightEncOld`).
- It adds `(rightInc - leftInc) * rate / base` to the heading `th`.
- It moves `x` and `y` by `(leftInc + rightInc) / 2 * rate`, projected through the updated heading.
- It stores the sample's readings as the next baseline.
- It publishes an `Odometry` message and a `base_link -> odom` transform.

The model is the module `MessageFilter` in `odometry.dfy`:

- `OdometryPublisher` is a class with the node's five fields.
  - Its constructor is `__init__`'s state initialisation.
  - `ArduinoCallback` updates the fields in the same order as the source.
  - `ArduinoCallback` returns the contents of the two published messages.
- `Step` is the same update written as a function on an `Estimate` value.
  `ArduinoCallback` is proved equal to `Step`.
- `Initial` is the state of a fresh node.
- `OdometryMessage` and `TransformMessage` build the published `Odometry` message (lines 60-66) and the broadcast transform (lines 52-58) from a state.
- `Run` applies `Step` to a sequence of samples.
  The multi-sample properties are proved about `Run`.

The numbers are `real`, not IEEE doubles. The sample array arrives as a `Float64MultiArray`, so all readings are floats. The source runs on Python 2, where `/ 2` on a float is true division, so the model writes `/ 2.0`.

`math.cos` and `tf.transformations.quaternion_from_euler` are passed to the callback as function parameters. So every property holds whatever these library functions return.

The source computes both `delta_x` and `delta_y` with `math.cos(self.th)`. The model keeps that. As a result, `x - y` never changes, and a fresh node always has `x == y`. `XEqualsYFromInitial` proves this.

The source gives Python's exceptions only implicitly, so the model names them:

- A sample shorter than 6 elements raises `IndexError` at lines 27-30.
- A zero wheel base raises `ZeroDivisionError` at line 37, because Python raises on float division by zero.

Both errors happen before line 38, the first write to a field. So `ArduinoCallback` returns `Raised(...)` in these cases and proves the object unchanged. It does not take them as preconditions.

## Model

| member | source | states |
|---|---|---|
| MessageFilter.HeadingIncrement | scripts/message_filter.py:36-37 | Equal wheel increments give a zero heading increment. With a positive rate and wheel base, the increment is positive exactly when the right wheel travelled farther. |
| MessageFilter.DistanceIncrement | scripts/message_filter.py:40 | Equal and opposite increments (rotation in place) give zero distance. Equal increments give one wheel's travel, `leftInc * rate`. |
| MessageFilter.Step | scripts/message_filter.py:34-47 | The stored readings become the sample's readings. The heading grows by exactly one increment of the two wheel increments and is unchanged when they are equal. `x` is projected through the post-update heading. `y - x` is preserved. Rotation in place leaves `x` and `y` unchanged. |
| MessageFilter.Run | scripts/message_filter.py:34-47 | After a non-empty run, the baseline is the last sample's readings; after an empty run it is unchanged. `x - y` is preserved over any run. |
| MessageFilter.OdometryPublisher.constructor | scripts/message_filter.py:15-19 | A fresh node has `x = y = th = 0` and both stored readings 0. |
| MessageFilter.OdometryPublisher.ArduinoCallback | scripts/message_filter.py:25-66 | A sample shorter than 6 raises `IndexError`, and a zero wheel base raises `ZeroDivisionError`; in both cases no field changes. Otherwise the new state is `Step` of the old state. The stored readings equal the sample's readings. `x - y` is unchanged. The published pose, twist and transform are built from the new state, `data[0]`, `data[1]` and the quaternion of the new heading. |
| MessageFilter.RunAppend | scripts/message_filter.py:34-47 | Running `a + b` equals running `b` from the state after `a`. Every sample adds exactly one step, in arrival order. |
| MessageFilter.HeadingTelescopes | scripts/message_filter.py:34-47 | With a common rate and wheel base, the heading gained over a run is the heading increment of the total baseline movement. The per-sample increments telescope. |
| MessageFilter.HeadingIncrementAdds | scripts/message_filter.py:36-38 | The heading increments of two movements add up to the increment of their sum. |
| MessageFilter.HeadingFromZeroBaseline | scripts/message_filter.py:17-19 | From zero heading and a zero baseline, the heading after a non-empty run with a common rate and base is `HeadingIncrement(lastLeft, lastRight, rate, base)`, that is `(lastRight - lastLeft) * rate / base`. |
| MessageFilter.XEqualsYFromInitial | scripts/message_filter.py:15-44 | Starting from a fresh node, `x == y` after every run of samples. |
| MessageFilter.FirstSampleFromZero | scripts/message_filter.py:18-41 | A fresh node's first sample is integrated against a zero baseline. Its absolute readings count as the increments of both the heading and the distance. |
| MessageFilter.TwistPassesThrough | scripts/message_filter.py:66 | The published twist is `(data[0], 0, 0)` linear and `(0, 0, data[1])` angular. It is the same for any state and any encoder fields. |
| MessageFilter.PoseMatchesTransform | scripts/message_filter.py:51-63 | The published pose and the broadcast transform carry the same position `(x, y, 0)` and the same quaternion. |
| MessageFilter.StraightFromRest | scripts/message_filter.py:34-47 | Readings 10/10 at 0.01 per tick on a 0.5 base from a fresh node keep the heading at 0. They move `x` and `y` each by `0.1 * cos(0)` and store 10/10 as the baseline. |
| MessageFilter.TurnAfterStraight | scripts/message_filter.py:34-47 | A fresh node given readings 10/10 and then 20/10, at 0.01 per tick on a 0.5 base, ends with heading -0.2 and a 20/10 baseline. Each of `x` and `y` is `0.1 * cos(0) + 0.05 * cos(-0.2)`, so the second step is projected through the heading after its update. |

## Left out

- The model does not cover the ROS subscriber, publisher and tf broadcaster (lines 11-13), `sendTransform` (lines 52-58) or `publish` (line 68). These are network I/O. The model returns the message contents instead.
- `rospy.Rate(1).sleep()`, `rospy.spin()` and the `__main__` node start-up (lines 22-23, 73-75) are process lifecycle with no state of the estimator.
- The timestamps `last_time` and `current_time` come from `rospy.Time.now()` (lines 20, 49, 70). They are a foreign clock and are not used in the arithmetic, so the model has no stamp field.
- `quaternion_from_euler` (line 51) and `math.cos` (lines 41-42) are library calls. The model takes them as parameters and proves nothing about their values.
- IEEE rounding, NaN and infinity are not modelled, because the arithmetic is over `real`.
- The model, like the source, does not handle encoder counter resets or non-finite input.
- Concurrency and start-up timing are not modelled. The model treats construction as atomic and runs callbacks strictly one after another. In the source, the subscriber is registered at line 11, before the fields are set at lines 15-19. A sample delivered in that window raises `AttributeError` at line 34 or 35, before any write, and is lost. `__init__` then blocks in `rospy.spin()` (line 23), and callbacks run on a separate thread. No lock guards the read-modify-write of `th`, `x` and `y` (lines 38, 43-44).
- `print "printing"` (line 71) is console output only.
