/** Dead-reckoning odometry of a differential-drive robot, as computed by the
    `Odometry_Publisher` node of scripts/message_filter.py.

    Every sample from the Arduino is a flat array of reals:
      [0] linear velocity, [1] angular velocity,
      [2] cumulative left encoder reading, [3] cumulative right encoder reading,
      [4] distance travelled per encoder tick, [5] wheel base.
    The node integrates the encoder increments into a pose (x, y, th) and keeps
    the last readings as the baseline of the next sample.

    Arithmetic is over `real`; `math.cos` and `quaternion_from_euler` are
    parameters, so every result holds whatever those library functions return. */
module MessageFilter {

  /** The node's dead-reckoning state: the pose and the encoder baseline. */
  datatype Estimate = Estimate(x: real, y: real, th: real, leftEncOld: real, rightEncOld: real)

  datatype Vector3 = Vector3(x: real, y: real, z: real)
  datatype Quaternion = Quaternion(x: real, y: real, z: real, w: real)

  /** The contents of the `Odometry` message published on /odom. */
  datatype OdometryMsg = OdometryMsg(
    frameId: string, childFrameId: string,
    position: Vector3, orientation: Quaternion,
    linear: Vector3, angular: Vector3)

  /** The contents of the transform announced by the tf broadcaster. */
  datatype TransformMsg = TransformMsg(
    translation: Vector3, rotation: Quaternion, child: string, parent: string)

  /** The Python exceptions the callback can raise before it changes any state. */
  datatype PyError = IndexError | ZeroDivisionError

  /** What one call of the callback does: publish both messages, or raise. */
  datatype Outcome = Published(odom: OdometryMsg, transform: TransformMsg) | Raised(error: PyError)

  /** A sample the callback integrates without raising: indices 0-5 exist and
      the wheel base is not zero (Python's float division by zero raises). */
  predicate WellFormed(data: seq<real>) {
    |data| >= 6 && data[5] != 0.0
  }

  /** Every sample of a sequence is well-formed. */
  predicate AllWellFormed(samples: seq<seq<real>>) {
    forall i :: 0 <= i < |samples| ==> WellFormed(samples[i])
  }

  /** Every sample of a sequence carries indices 0-5 and the same tick rate
      and wheel base. */
  predicate SameGeometry(samples: seq<seq<real>>, rate: real, base: real) {
    forall i :: 0 <= i < |samples| ==>
      |samples[i]| >= 6 && samples[i][4] == rate && samples[i][5] == base
  }

  /** The state of a freshly constructed node. */
  function Initial(): (e: Estimate) {
    Estimate(0.0, 0.0, 0.0, 0.0, 0.0)
  }

  /** Heading increment for the given wheel increments: the difference of
      the wheels' travel divided by the wheel base. */
  function HeadingIncrement(leftInc: real, rightInc: real, rate: real, base: real): (dth: real)
    requires base != 0.0
    ensures leftInc == rightInc ==> dth == 0.0
    // with a positive rate and wheel base, the robot turns towards the wheel that travelled less
    ensures rate > 0.0 && base > 0.0 ==> (dth > 0.0 <==> rightInc > leftInc)
  {
    var lengthError := (rightInc - leftInc) * rate;
    lengthError / base
  }

  /** Distance increment for the given wheel increments: the mean of the two
      wheels' travel. */
  function DistanceIncrement(leftInc: real, rightInc: real, rate: real): (dd: real)
    ensures leftInc == -rightInc ==> dd == 0.0
    ensures leftInc == rightInc ==> dd == leftInc * rate
  {
    (leftInc + rightInc) / 2.0 * rate
  }

  /** One integration step of the callback on a well-formed sample. */
  function Step(e: Estimate, data: seq<real>, cos: real -> real): (t: Estimate)
    requires WellFormed(data)
    // the readings become the next baseline, whatever else happened
    ensures t.leftEncOld == data[2] && t.rightEncOld == data[3]
    // the heading moves by one increment computed from the two wheel increments
    ensures t.th == e.th + HeadingIncrement(data[2] - e.leftEncOld, data[3] - e.rightEncOld, data[4], data[5])
    ensures data[2] - e.leftEncOld == data[3] - e.rightEncOld ==> t.th == e.th
    // the projection uses the heading after the increment, and both axes use cos
    ensures t.x == e.x + DistanceIncrement(data[2] - e.leftEncOld, data[3] - e.rightEncOld, data[4]) * cos(t.th)
    ensures t.y - t.x == e.y - e.x
    // rotating in place does not move the robot
    ensures data[2] - e.leftEncOld == -(data[3] - e.rightEncOld) ==> t.x == e.x && t.y == e.y
  {
    var leftEnc, rightEnc, rateEnc, baseDistance := data[2], data[3], data[4], data[5];
    var leftEncInc := leftEnc - e.leftEncOld;
    var rightEncInc := rightEnc - e.rightEncOld;
    var th := e.th + HeadingIncrement(leftEncInc, rightEncInc, rateEnc, baseDistance);
    var deltaD := DistanceIncrement(leftEncInc, rightEncInc, rateEnc);
    Estimate(e.x + deltaD * cos(th), e.y + deltaD * cos(th), th, leftEnc, rightEnc)
  }

  /** The state after the callback has been applied to every sample in turn. */
  function Run(e: Estimate, samples: seq<seq<real>>, cos: real -> real): (f: Estimate)
    requires AllWellFormed(samples)
    ensures samples != [] ==>
      (WellFormed(samples[|samples| - 1]) &&
       f.leftEncOld == samples[|samples| - 1][2] && f.rightEncOld == samples[|samples| - 1][3])
    ensures samples == [] ==> f.leftEncOld == e.leftEncOld && f.rightEncOld == e.rightEncOld
    ensures f.x - f.y == e.x - e.y
    decreases |samples|
  {
    if samples == [] then e else Run(Step(e, samples[0], cos), samples[1..], cos)
  }

  /** The message published on /odom for the state `e` after a sample. */
  function OdometryMessage(e: Estimate, data: seq<real>, quat: Quaternion): (m: OdometryMsg)
    requires |data| >= 2
  {
    OdometryMsg("odom", "base_link", Vector3(e.x, e.y, 0.0), quat,
                Vector3(data[0], 0.0, 0.0), Vector3(0.0, 0.0, data[1]))
  }

  /** The transform announced for the state `e`: base_link relative to odom. */
  function TransformMessage(e: Estimate, quat: Quaternion): (t: TransformMsg) {
    TransformMsg(Vector3(e.x, e.y, 0.0), quat, "base_link", "odom")
  }

  /** The node itself: the five fields the callback updates in place. */
  class OdometryPublisher {
    var x: real
    var y: real
    var th: real
    var leftEncOld: real
    var rightEncOld: real

    /** The node's state as a value. */
    function Snapshot(): (e: Estimate)
      reads this
    {
      Estimate(x, y, th, leftEncOld, rightEncOld)
    }

    /** A fresh node stands at the origin with heading 0 and a zero baseline. */
    constructor ()
      ensures Snapshot() == Initial()
      ensures x == y
    {
      x := 0.0;
      y := 0.0;
      th := 0.0;
      leftEncOld := 0.0;
      rightEncOld := 0.0;
    }

    /** Integrates one sample and returns the messages it publishes. A sample
        that is too short, or whose wheel base is zero, raises before any
        field is written. */
    method ArduinoCallback(data: seq<real>, cos: real -> real,
                           quaternionFromEuler: (real, real, real) -> Quaternion)
      returns (out: Outcome)
      modifies this
      ensures |data| < 6 ==> out == Raised(IndexError) && unchanged(this)
      ensures |data| >= 6 && data[5] == 0.0 ==> out == Raised(ZeroDivisionError) && unchanged(this)
      ensures WellFormed(data) ==> Snapshot() == Step(old(Snapshot()), data, cos)
      ensures WellFormed(data) ==> leftEncOld == data[2] && rightEncOld == data[3]
      ensures x - y == old(x - y)
      ensures out.Published? <==> WellFormed(data)
      ensures out.Published? ==>
        var quat := quaternionFromEuler(0.0, 0.0, th);
        out == Published(OdometryMessage(Snapshot(), data, quat), TransformMessage(Snapshot(), quat))
    {
      if |data| < 6 {
        return Raised(IndexError);
      }
      ghost var before := Snapshot();
      var leftEnc := data[2];
      var rightEnc := data[3];
      var rateEnc := data[4];
      var baseDistance := data[5];

      var leftEncInc := leftEnc - leftEncOld;
      var rightEncInc := rightEnc - rightEncOld;
      var lengthError := (rightEncInc - leftEncInc) * rateEnc;
      if baseDistance == 0.0 {
        return Raised(ZeroDivisionError);
      }
      var deltaTh := lengthError / baseDistance;
      assert deltaTh == HeadingIncrement(leftEncInc, rightEncInc, rateEnc, baseDistance);
      th := th + deltaTh;

      var deltaD := (leftEncInc + rightEncInc) / 2.0 * rateEnc;
      assert deltaD == DistanceIncrement(leftEncInc, rightEncInc, rateEnc);
      var deltaX := deltaD * cos(th);
      var deltaY := deltaD * cos(th);
      x := x + deltaX;
      y := y + deltaY;

      leftEncOld := leftEnc;
      rightEncOld := rightEnc;
      assert Snapshot() == Step(before, data, cos);

      var odomQuat := quaternionFromEuler(0.0, 0.0, th);
      var odom := OdometryMsg("odom", "base_link", Vector3(x, y, 0.0), odomQuat,
                              Vector3(data[0], 0.0, 0.0), Vector3(0.0, 0.0, data[1]));
      var transform := TransformMsg(Vector3(x, y, 0.0), odomQuat, "base_link", "odom");
      out := Published(odom, transform);
    }
  }

  /** Running samples one after another is running their concatenation:
      the state after `a ++ b` is the state after `b` started from the state
      after `a`, so each sample adds exactly one step in arrival order. */
  lemma {:induction false} RunAppend(e: Estimate, a: seq<seq<real>>, b: seq<seq<real>>, cos: real -> real)
    requires AllWellFormed(a) && AllWellFormed(b)
    ensures AllWellFormed(a + b)
    ensures Run(e, a + b, cos) == Run(Run(e, a, cos), b, cos)
    decreases |a|
  {
    assert AllWellFormed(a + b) by {
      forall i | 0 <= i < |a + b| ensures WellFormed((a + b)[i]) {
        if i < |a| { assert (a + b)[i] == a[i]; } else { assert (a + b)[i] == b[i - |a|]; }
      }
    }
    if a != [] {
      assert (a + b)[1..] == a[1..] + b;
      RunAppend(Step(e, a[0], cos), a[1..], b, cos);
    } else {
      assert a + b == b;
    }
  }

  /** With a common tick rate and wheel base, the per-sample heading
      increments telescope: the heading gained over a run is the heading
      increment of the total movement of the baseline. */
  lemma {:induction false} HeadingTelescopes(e: Estimate, samples: seq<seq<real>>, rate: real, base: real,
                                            cos: real -> real)
    requires base != 0.0
    requires SameGeometry(samples, rate, base)
    ensures AllWellFormed(samples)
    ensures Run(e, samples, cos).th == e.th + HeadingIncrement(
      Run(e, samples, cos).leftEncOld - e.leftEncOld, Run(e, samples, cos).rightEncOld - e.rightEncOld, rate, base)
    decreases |samples|
  {
    if samples != [] {
      var s := Step(e, samples[0], cos);
      var f := Run(e, samples, cos);
      HeadingTelescopes(s, samples[1..], rate, base, cos);
      assert f == Run(s, samples[1..], cos);
      HeadingIncrementAdds(s.leftEncOld - e.leftEncOld, s.rightEncOld - e.rightEncOld,
                           f.leftEncOld - s.leftEncOld, f.rightEncOld - s.rightEncOld, rate, base);
    }
  }

  /** Heading increments add up: the increment of two movements in turn is
      the increment of their sum. */
  lemma HeadingIncrementAdds(l1: real, r1: real, l2: real, r2: real, rate: real, base: real)
    requires base != 0.0
    ensures HeadingIncrement(l1, r1, rate, base) + HeadingIncrement(l2, r2, rate, base)
         == HeadingIncrement(l1 + l2, r1 + r2, rate, base)
  {
  }

  /** From a state with zero heading and a zero baseline, as a fresh node
      has, the heading after any non-empty run with a common tick rate and
      wheel base is the heading increment of the last readings themselves,
      (lastRight - lastLeft) * rate / base: the zero baseline makes the first
      sample's absolute readings count as increments. */
  lemma HeadingFromZeroBaseline(e: Estimate, samples: seq<seq<real>>, rate: real, base: real, cos: real -> real)
    requires e.th == 0.0 && e.leftEncOld == 0.0 && e.rightEncOld == 0.0
    requires samples != []
    requires base != 0.0
    requires SameGeometry(samples, rate, base)
    ensures Run(e, samples, cos).th ==
      HeadingIncrement(samples[|samples| - 1][2], samples[|samples| - 1][3], rate, base)
  {
    HeadingTelescopes(e, samples, rate, base, cos);
    var f := Run(e, samples, cos);
    var last := samples[|samples| - 1];
    assert f.leftEncOld == last[2] && f.rightEncOld == last[3];
    assert last[2] - e.leftEncOld == last[2] && last[3] - e.rightEncOld == last[3];
  }

  /** Since both axes are projected through cos, a fresh node's x and y stay
      equal over every run. */
  lemma XEqualsYFromInitial(samples: seq<seq<real>>, cos: real -> real)
    requires AllWellFormed(samples)
    ensures Run(Initial(), samples, cos).x == Run(Initial(), samples, cos).y
  {
  }

  /** The first sample seen by a fresh node is integrated against a zero
      baseline: its absolute readings are taken as the increments. */
  lemma FirstSampleFromZero(data: seq<real>, cos: real -> real)
    requires WellFormed(data)
    ensures Step(Initial(), data, cos).th == (data[3] - data[2]) * data[4] / data[5]
    ensures Step(Initial(), data, cos).x ==
      (data[2] + data[3]) / 2.0 * data[4] * cos(Step(Initial(), data, cos).th)
  {
  }

  /** The published twist is the sample's velocities passed through: two
      samples that agree on indices 0 and 1 publish the same twist, whatever
      their encoder fields and whatever the state. */
  lemma TwistPassesThrough(e1: Estimate, e2: Estimate, d1: seq<real>, d2: seq<real>, q1: Quaternion, q2: Quaternion)
    requires |d1| >= 2 && |d2| >= 2
    requires d1[0] == d2[0] && d1[1] == d2[1]
    ensures OdometryMessage(e1, d1, q1).linear == OdometryMessage(e2, d2, q2).linear == Vector3(d1[0], 0.0, 0.0)
    ensures OdometryMessage(e1, d1, q1).angular == OdometryMessage(e2, d2, q2).angular == Vector3(0.0, 0.0, d1[1])
  {
  }

  /** The published pose and the announced transform carry the same position
      and rotation, at height 0. */
  lemma PoseMatchesTransform(e: Estimate, data: seq<real>, quat: Quaternion)
    requires |data| >= 2
    ensures OdometryMessage(e, data, quat).position == TransformMessage(e, quat).translation == Vector3(e.x, e.y, 0.0)
    ensures OdometryMessage(e, data, quat).orientation == TransformMessage(e, quat).rotation == quat
  {
  }

  /** A fresh node driven 10 ticks straight ahead on both wheels, at 0.01 per
      tick on a 0.5 wheel base, keeps heading 0 and moves 0.1 * cos(0) along
      each of x and y. */
  lemma StraightFromRest(v: real, w: real, cos: real -> real)
    ensures WellFormed([v, w, 10.0, 10.0, 0.01, 0.5])
    ensures Step(Initial(), [v, w, 10.0, 10.0, 0.01, 0.5], cos)
         == Estimate(0.1 * cos(0.0), 0.1 * cos(0.0), 0.0, 10.0, 10.0)
  {
  }

  /** Continuing from there, a left reading of 20 against a right reading of
      10 turns the heading to -0.2, and the 0.05 travelled is projected
      through the new heading. */
  lemma TurnAfterStraight(v: real, w: real, cos: real -> real)
    ensures WellFormed([v, w, 10.0, 10.0, 0.01, 0.5]) && WellFormed([v, w, 20.0, 10.0, 0.01, 0.5])
    ensures Step(Step(Initial(), [v, w, 10.0, 10.0, 0.01, 0.5], cos), [v, w, 20.0, 10.0, 0.01, 0.5], cos)
         == Estimate(0.1 * cos(0.0) + 0.05 * cos(-0.2), 0.1 * cos(0.0) + 0.05 * cos(-0.2), -0.2, 20.0, 10.0)
  {
    StraightFromRest(v, w, cos);
  }
}
