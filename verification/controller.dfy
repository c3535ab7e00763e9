/** The PID controller of the simulator: rectangular integration of the
    error, a backward-difference derivative, and an unclamped weighted sum.
 */
module Controller {
  import opened Params

  /** Error history kept between ticks. */
  datatype PidState = PidState(integral: real, prevError: real)

  /** The state every run starts from. */
  const Reset: PidState := PidState(0.0, 0.0)

  /** One controller tick: the control output and the state after it. */
  datatype PidOut = PidOut(output: real, next: PidState)

  /** The PID law: the gain-weighted sum of the error, the integral and the
      backward-difference derivative against the previous error. */
  function Law(g: Gains, dt: real, error: real, integral: real, prevError: real): real
    requires dt > 0.0
  {
    g.kp * error + g.ki * integral + g.kd * ((error - prevError) / dt)
  }

  /** One controller tick for a setpoint and a measured pose. The integral
      grows by exactly error times dt, the derivative is taken against the
      previous tick's error, and the output is not clamped. */
  function Compute(g: Gains, dt: real, s: PidState, setpoint: real, pose: real): (r: PidOut)
    requires dt > 0.0
    ensures r.next.integral - s.integral == (setpoint - pose) * dt
    ensures r.next.prevError == setpoint - pose
    ensures r.output == Law(g, dt, setpoint - pose, r.next.integral, s.prevError)
  {
    var error := setpoint - pose;
    var integral := s.integral + error * dt;
    var derivative := (error - s.prevError) / dt;
    var output := g.kp * error + g.ki * integral + g.kd * derivative;
    PidOut(output, PidState(integral, error))
  }

  /** A tick depends on the setpoint and the pose only through their
      difference, the error. */
  lemma OnlyErrorMatters(g: Gains, dt: real, s: PidState, setpoint: real, pose: real)
    requires dt > 0.0
    ensures Compute(g, dt, s, setpoint, pose) == Compute(g, dt, s, setpoint - pose, 0.0)
  {
    var e := setpoint - pose;
    assert e - 0.0 == e;
  }

  /** The controller's outputs over a sequence of ticks and its final state. */
  datatype Driven = Driven(outs: seq<real>, last: PidState)

  /** Feeds a sequence of errors, one per tick, to a freshly reset controller.
      Only the error matters to a tick, so each is given as a setpoint with a
      zero pose. */
  function Drive(g: Gains, dt: real, errs: seq<real>): (r: Driven)
    requires dt > 0.0
    ensures |r.outs| == |errs|
    ensures |errs| > 0 ==> r.last.prevError == errs[|errs| - 1]
    decreases |errs|
  {
    if |errs| == 0 then Driven([], Reset)
    else
      var before := Drive(g, dt, errs[..|errs| - 1]);
      var c := Compute(g, dt, before.last, errs[|errs| - 1], 0.0);
      Driven(before.outs + [c.output], c.next)
  }

  /** Feeding one more error runs one more tick on the state left behind. */
  lemma DriveSnoc(g: Gains, dt: real, errs: seq<real>, e: real)
    requires dt > 0.0
    ensures var d := Drive(g, dt, errs);
      var c := Compute(g, dt, d.last, e, 0.0);
      Drive(g, dt, errs + [e]) == Driven(d.outs + [c.output], c.next)
  {
    assert (errs + [e])[..|errs|] == errs;
  }

  /** A controller that has produced `outs` and sits in state `s` after
      `errs` produces, for one more tick at a setpoint and a pose, exactly
      that tick's output and state. */
  lemma DriveStep(g: Gains, dt: real, errs: seq<real>, outs: seq<real>, s: PidState, setpoint: real, pose: real)
    requires dt > 0.0
    requires Drive(g, dt, errs) == Driven(outs, s)
    ensures var c := Compute(g, dt, s, setpoint, pose);
      Drive(g, dt, errs + [setpoint - pose]) == Driven(outs + [c.output], c.next)
  {
    DriveSnoc(g, dt, errs, setpoint - pose);
    OnlyErrorMatters(g, dt, s, setpoint, pose);
  }

  /** Rectangle-rule integral of a sequence of errors sampled every `dt`. */
  function RectangleSum(errs: seq<real>, dt: real): real
    decreases |errs|
  {
    if |errs| == 0 then 0.0 else RectangleSum(errs[..|errs| - 1], dt) + errs[|errs| - 1] * dt
  }

  /** The element before index `i`, or zero at the start. */
  function Prior(s: seq<real>, i: nat): real
    requires i <= |s|
  {
    if i == 0 then 0.0 else s[i - 1]
  }

  /** After a reset, the integral is the rectangle-rule integral of all errors so far
      and the remembered error is the last one (zero before the first tick). */
  lemma {:induction false} AccumulatedState(g: Gains, dt: real, errs: seq<real>)
    requires dt > 0.0
    ensures Drive(g, dt, errs).last == PidState(RectangleSum(errs, dt), Prior(errs, |errs|))
    decreases |errs|
  {
    if |errs| > 0 {
      var k := |errs| - 1;
      var before := Drive(g, dt, errs[..k]).last;
      AccumulatedState(g, dt, errs[..k]);
      var e := errs[k];
      assert Drive(g, dt, errs).last == Compute(g, dt, before, e, 0.0).next;
      assert e - 0.0 == e;
    }
  }

  /** Feeding a prefix of the errors yields the same prefix of outputs. */
  lemma {:induction false} DrivePrefix(g: Gains, dt: real, errs: seq<real>, k: nat)
    requires dt > 0.0
    requires k <= |errs|
    ensures Drive(g, dt, errs[..k]).outs == Drive(g, dt, errs).outs[..k]
    decreases |errs|
  {
    if k < |errs| {
      var n := |errs| - 1;
      DrivePrefix(g, dt, errs[..n], k);
      assert errs[..n][..k] == errs[..k];
    } else {
      assert errs[..k] == errs;
    }
  }

  /** The newest output of a freshly reset controller, in positional form. */
  lemma NewestOutput(g: Gains, dt: real, errs: seq<real>)
    requires dt > 0.0
    requires |errs| > 0
    ensures Drive(g, dt, errs).outs[|errs| - 1]
      == Law(g, dt, errs[|errs| - 1], RectangleSum(errs, dt), Prior(errs, |errs| - 1))
  {
    var k := |errs| - 1;
    AccumulatedState(g, dt, errs[..k]);
    AccumulatedState(g, dt, errs);
  }

  /** Output `i` of a freshly reset controller, in positional form. */
  lemma OutputAt(g: Gains, dt: real, errs: seq<real>, i: nat)
    requires dt > 0.0
    requires i < |errs|
    ensures Drive(g, dt, errs).outs[i] == Law(g, dt, errs[i], RectangleSum(errs[..i + 1], dt), Prior(errs, i))
  {
    var head := errs[..i + 1];
    DrivePrefix(g, dt, errs, i + 1);
    NewestOutput(g, dt, head);
    assert head[i] == errs[i];
    assert Prior(head, i) == Prior(errs, i);
  }

  /** The positional form of the PID law: output `i` of a freshly reset
      controller is the proportional term on error `i`, plus the integral
      gain times the rectangle-rule integral of errors 0..i, plus the derivative gain
      times the difference from the previous error over dt (the error before
      the first tick counting as zero). */
  lemma PositionalForm(g: Gains, dt: real, errs: seq<real>)
    requires dt > 0.0
    ensures forall i {:trigger Drive(g, dt, errs).outs[i]} :: 0 <= i < |errs| ==>
      Drive(g, dt, errs).outs[i] == Law(g, dt, errs[i], RectangleSum(errs[..i + 1], dt), Prior(errs, i))
  {
    forall i | 0 <= i < |errs| {
      OutputAt(g, dt, errs, i);
    }
  }
}
