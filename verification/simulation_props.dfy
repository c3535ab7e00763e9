/** Properties of a simulation run: shape of the recorded series, the order
    of the updates within a tick, the effective actuation delay, the
    positional form of the controller output, and the zero-gain run.
 */
module SimulationProps {
  import opened Params
  import Controller
  import Plant
  import DelayLine
  import opened Simulation

  /** Running fewer ticks records a prefix of a longer run. */
  lemma {:induction false} SimulatePrefix(cfg: Config, g: Gains, n: nat, k: nat)
    requires Valid(cfg)
    requires k <= n
    ensures Simulate(cfg, g, k).trace == Simulate(cfg, g, n).trace.Take(k)
    decreases n
  {
    if k < n {
      SimulatePrefix(cfg, g, n - 1, k);
      var before := Simulate(cfg, g, n - 1);
      var o := Tick(cfg, g, before.last, n - 1);
      TakeAppend(before.trace, n - 1, k, o.time, o.setpoint, o.pose, o.output);
    } else {
      TakeAll(Simulate(cfg, g, n).trace, n);
    }
  }

  /** Entry `i` of every series is what tick `i` records, starting from the
      state the first `i` ticks leave. */
  lemma SampleAt(cfg: Config, g: Gains, n: nat, i: nat)
    requires Valid(cfg)
    requires i < n
    ensures var o := Tick(cfg, g, Simulate(cfg, g, i).last, i);
      var t := Simulate(cfg, g, n).trace;
      && t.labels[i] == o.time && t.setpoints[i] == o.setpoint
      && t.poses[i] == o.pose && t.outputs[i] == o.output
      && Simulate(cfg, g, i + 1).last == o.next
  {
    SimulatePrefix(cfg, g, n, i + 1);
    var t := Simulate(cfg, g, i + 1).trace;
    assert Simulate(cfg, g, n).trace.labels[i] == t.labels[i];
    assert Simulate(cfg, g, n).trace.setpoints[i] == t.setpoints[i];
    assert Simulate(cfg, g, n).trace.poses[i] == t.poses[i];
    assert Simulate(cfg, g, n).trace.outputs[i] == t.outputs[i];
  }

  /** Tick `i` records the time `i * dt` and the unit-step setpoint. */
  lemma ShapeAt(cfg: Config, g: Gains, n: nat, i: nat)
    requires Valid(cfg)
    requires i < n
    ensures Simulate(cfg, g, n).trace.labels[i] == i as real * cfg.dt
    ensures Simulate(cfg, g, n).trace.setpoints[i] == if i == 0 then 0.0 else 1.0
  {
    var o := Tick(cfg, g, Simulate(cfg, g, i).last, i);
    var t := Simulate(cfg, g, n).trace;
    assert t.labels[i] == o.time && t.setpoints[i] == o.setpoint by {
      SampleAt(cfg, g, n, i);
    }
    assert o.setpoint == Setpoint(cfg, i);
  }

  /** A run records the time `i * dt` at tick `i`, and a setpoint of 0 at the
      first tick and 1 at every later one. */
  lemma TraceShape(cfg: Config, g: Gains)
    requires Valid(cfg)
    ensures forall i :: 0 <= i < cfg.numSteps ==>
        && Run(cfg, g).labels[i] == i as real * cfg.dt
        && Run(cfg, g).setpoints[i] == if i == 0 then 0.0 else 1.0
  {
    forall i | 0 <= i < cfg.numSteps {
      ShapeAt(cfg, g, cfg.numSteps, i);
    }
  }

  /** After `k` ticks the plant sits at the last recorded pose (at rest
      before the first tick): the pose the controller sees at a tick is the
      one recorded at the tick before. */
  lemma PoseTracks(cfg: Config, g: Gains, k: nat)
    requires Valid(cfg)
    ensures Simulate(cfg, g, k).last.plant.pose == Controller.Prior(Simulate(cfg, g, k).trace.poses, k)
  {
  }

  /** After `k` ticks the delay line is exactly the line obtained by feeding
      it the recorded (undelayed) outputs. */
  lemma {:induction false} BufferTracksOutputs(cfg: Config, g: Gains, k: nat)
    requires Valid(cfg)
    ensures Simulate(cfg, g, k).last.buf
            == DelayLine.Line(DelayLine.Zeros(cfg.delaySteps), Simulate(cfg, g, k).trace.outputs)
    decreases k
  {
    if k > 0 {
      BufferTracksOutputs(cfg, g, k - 1);
      var outs := Simulate(cfg, g, k).trace.outputs;
      assert outs[..k - 1] == Simulate(cfg, g, k - 1).trace.outputs;
    }
  }

  /** The delay line keeps its `delaySteps` entries through a run; a line
      created empty holds one entry from the first tick on. */
  lemma BufferLength(cfg: Config, g: Gains, k: nat)
    requires Valid(cfg)
    ensures cfg.delaySteps > 0 ==> |Simulate(cfg, g, k).last.buf| == cfg.delaySteps
    ensures cfg.delaySteps == 0 ==> |Simulate(cfg, g, k).last.buf| == if k == 0 then 0 else 1
  {
    BufferTracksOutputs(cfg, g, k);
  }

  /** The input that actually drives the plant at tick `i` is the output the
      controller recorded `Lag(delaySteps)` ticks earlier, and zero before
      that: the recorded outputs are what the controller commanded, not what
      the plant received. */
  lemma AppliedInput(cfg: Config, g: Gains, n: nat, i: nat)
    requires Valid(cfg)
    requires i < n
    ensures var outs := Simulate(cfg, g, n).trace.outputs;
      Simulate(cfg, g, i + 1).last.plant
        == Plant.Step(cfg, Simulate(cfg, g, i).last.plant, DelayLine.Delayed(outs, DelayLine.Lag(cfg.delaySteps))[i])
  {
    var outs := Simulate(cfg, g, n).trace.outputs;
    var head := Simulate(cfg, g, i + 1).trace.outputs;
    var z := DelayLine.Zeros(cfg.delaySteps);
    assert Simulate(cfg, g, i + 1).last.plant == Plant.Step(cfg, Simulate(cfg, g, i).last.plant, DelayLine.Line(z, head)[0]) by {
      BufferTracksOutputs(cfg, g, i + 1);
    }
    assert head == outs[..i + 1] by {
      SimulatePrefix(cfg, g, n, i + 1);
    }
    DelayLine.ExactLag(cfg.delaySteps, outs, i);
  }

  /** The controller after a run is in step with its record: it is a freshly
      reset controller fed the recorded errors, and the recorded outputs are
      that controller's outputs. */
  predicate InStep(cfg: Config, g: Gains, p: Progress)
    requires Valid(cfg)
    requires |p.trace.setpoints| == |p.trace.poses|
  {
    Controller.Drive(g, cfg.dt, Errors(p.trace)) == Controller.Driven(p.trace.outputs, p.last.pid)
  }

  /** Each tick appends one error: its setpoint minus the pose the plant
      held before the tick. */
  lemma ErrorsStep(cfg: Config, g: Gains, n: nat)
    requires Valid(cfg)
    ensures var s := Simulate(cfg, g, n).last;
      Errors(Simulate(cfg, g, n + 1).trace)
        == Errors(Simulate(cfg, g, n).trace) + [Tick(cfg, g, s, n).setpoint - s.plant.pose]
  {
    var before := Simulate(cfg, g, n);
    var o := Tick(cfg, g, before.last, n);
    assert Simulate(cfg, g, n + 1).trace == before.trace.Append(o.time, o.setpoint, o.pose, o.output);
    PoseTracks(cfg, g, n);
    ErrorsAppend(before.trace, n, o.time, o.setpoint, o.pose, o.output);
  }

  /** One tick keeps the recorded outputs and the controller state in step
      with a controller driven by the recorded errors. */
  lemma TracksStep(cfg: Config, g: Gains, n: nat)
    requires Valid(cfg)
    requires InStep(cfg, g, Simulate(cfg, g, n))
    ensures InStep(cfg, g, Simulate(cfg, g, n + 1))
  {
    var before := Simulate(cfg, g, n);
    var s := before.last;
    var o := Tick(cfg, g, s, n);
    ErrorsStep(cfg, g, n);
    Controller.DriveStep(g, cfg.dt, Errors(before.trace), before.trace.outputs, s.pid, o.setpoint, s.plant.pose);
  }

  /** After `k` ticks the controller is exactly a freshly reset controller fed
      the recorded errors, and the recorded outputs are its outputs. */
  lemma {:induction false} ControllerTracks(cfg: Config, g: Gains, k: nat)
    requires Valid(cfg)
    ensures InStep(cfg, g, Simulate(cfg, g, k))
    decreases k
  {
    if k > 0 {
      ControllerTracks(cfg, g, k - 1);
      TracksStep(cfg, g, k - 1);
    }
  }

  /** Positional form of every recorded output: with `e` the recorded errors,
      output `i` is the PID law applied to error `i`, the rectangle-rule
      integral of errors 0..i, and error `i - 1` (zero at the first tick). */
  lemma OutputClosedForm(cfg: Config, g: Gains)
    requires Valid(cfg)
    ensures var t := Run(cfg, g);
      var e := Errors(t);
      forall i :: 0 <= i < cfg.numSteps ==>
        t.outputs[i] == Controller.Law(g, cfg.dt, e[i], Controller.RectangleSum(e[..i + 1], cfg.dt),
                                       Controller.Prior(e, i))
  {
    ControllerTracks(cfg, g, cfg.numSteps);
    Controller.PositionalForm(g, cfg.dt, Errors(Run(cfg, g)));
  }

  /** All three gains zero. */
  const ZeroGains: Gains := Gains(0.0, 0.0, 0.0)

  /** Nothing has moved: the plant is at rest, the delay line holds only
      zeros, and every one of the first `k` recorded outputs and poses is 0. */
  predicate Quiet(p: Progress, k: nat)
    requires p.trace.Aligned(k)
  {
    && p.last.plant == Plant.Rest
    && (forall j :: 0 <= j < |p.last.buf| ==> p.last.buf[j] == 0.0)
    && (forall i :: 0 <= i < k ==> p.trace.outputs[i] == 0.0 && p.trace.poses[i] == 0.0)
  }

  /** With all gains zero the controller never commands anything, so the
      plant never leaves rest, although the integral keeps growing. */
  lemma {:induction false} ZeroGainsQuiet(cfg: Config, k: nat)
    requires Valid(cfg)
    ensures Quiet(Simulate(cfg, ZeroGains, k), k)
    decreases k
  {
    if k > 0 {
      ZeroGainsQuiet(cfg, k - 1);
      var before := Simulate(cfg, ZeroGains, k - 1);
      var s := before.last;
      var o := Tick(cfg, ZeroGains, s, k - 1);
      var c := Controller.Compute(ZeroGains, cfg.dt, s.pid, o.setpoint, s.plant.pose);
      assert o.output == 0.0 by {
        assert c.output == 0.0 * (o.setpoint - s.plant.pose) + 0.0 * c.next.integral
                           + 0.0 * ((o.setpoint - s.plant.pose - s.pid.prevError) / cfg.dt);
      }
      var line := DelayLine.Push(s.buf, 0.0);
      assert line[0] == 0.0;
      assert line == DelayLine.Shift(s.buf) + [0.0];
      Plant.RestIsFixed(cfg);
      var t := Simulate(cfg, ZeroGains, k).trace;
      assert t == before.trace.Append(o.time, o.setpoint, o.pose, o.output);
      forall i | 0 <= i < k
        ensures t.outputs[i] == 0.0 && t.poses[i] == 0.0
      {
        if i < k - 1 {
          assert t.outputs[i] == before.trace.outputs[i] && t.poses[i] == before.trace.poses[i];
        }
      }
    }
  }

  /** A run with all gains zero records only zero outputs and zero poses, and
      the plant's pose and velocity stay exactly zero after every tick. */
  lemma ZeroGainsRun(cfg: Config)
    requires Valid(cfg)
    ensures forall i :: 0 <= i < cfg.numSteps ==>
      Run(cfg, ZeroGains).outputs[i] == 0.0 && Run(cfg, ZeroGains).poses[i] == 0.0
    ensures forall k :: 0 <= k <= cfg.numSteps ==> Simulate(cfg, ZeroGains, k).last.plant == Plant.Rest
  {
    ZeroGainsQuiet(cfg, cfg.numSteps);
    forall k | 0 <= k <= cfg.numSteps
      ensures Simulate(cfg, ZeroGains, k).last.plant == Plant.Rest
    {
      ZeroGainsQuiet(cfg, k);
    }
  }

  /** The first tick: at time zero the setpoint and the error are zero, so
      the controller outputs 0, keeps a zero state, and the plant stays at
      rest. */
  lemma FirstTick(cfg: Config, g: Gains)
    requires Valid(cfg)
    ensures Simulate(cfg, g, 1).trace.outputs == [0.0]
    ensures Simulate(cfg, g, 1).trace.poses == [0.0]
    ensures Simulate(cfg, g, 1).last.pid == Controller.Reset
    ensures Simulate(cfg, g, 1).last.plant == Plant.Rest
  {
    var s0 := Start(cfg);
    var o := Tick(cfg, g, s0, 0);
    var c0 := Controller.Compute(g, cfg.dt, s0.pid, 0.0, 0.0);
    assert c0.output == g.kp * 0.0 + g.ki * 0.0 + g.kd * (0.0 / cfg.dt);
    assert o.output == 0.0;
    assert DelayLine.Push(s0.buf, 0.0)[0] == 0.0;
    Plant.RestIsFixed(cfg);
  }

  /** The second tick, from the state the first one leaves: the error is 1,
      so the output is kp + ki*dt + kd/dt. */
  lemma SecondOutput(cfg: Config, g: Gains)
    requires Valid(cfg)
    ensures Simulate(cfg, g, 2).trace.outputs[1] == g.kp + g.ki * cfg.dt + g.kd / cfg.dt
  {
    FirstTick(cfg, g);
    var s1 := Simulate(cfg, g, 1).last;
    var o := Tick(cfg, g, s1, 1);
    assert o.setpoint == 1.0;
    var c1 := Controller.Compute(g, cfg.dt, Controller.Reset, 1.0, 0.0);
    assert c1.next.integral == cfg.dt;
    assert c1.output == g.kp * 1.0 + g.ki * cfg.dt + g.kd * (1.0 / cfg.dt);
  }

  /** The second recorded pose: still 0 when the line was created with two or
      more elements (the plant receives the first output, 0), but already
      output*dt*dt when it was created with zero or one (the plant receives
      the second output at once). */
  lemma SecondPose(cfg: Config, g: Gains)
    requires Valid(cfg)
    ensures cfg.delaySteps >= 2 ==> Simulate(cfg, g, 2).trace.poses[1] == 0.0
    ensures cfg.delaySteps <= 1 ==>
      Simulate(cfg, g, 2).trace.poses[1] == Plant.Step(cfg, Plant.Rest, Simulate(cfg, g, 2).trace.outputs[1]).pose
  {
    var t := Simulate(cfg, g, 2).trace;
    var u := DelayLine.Delayed(t.outputs, DelayLine.Lag(cfg.delaySteps))[1];
    assert Simulate(cfg, g, 2).last.plant == Plant.Step(cfg, Plant.Rest, u) by {
      FirstTick(cfg, g);
      AppliedInput(cfg, g, 2, 1);
    }
    assert t.poses[1] == Simulate(cfg, g, 2).last.plant.pose by {
      SampleAt(cfg, g, 2, 1);
    }
    if cfg.delaySteps >= 2 {
      assert t.outputs[0] == 0.0 by {
        FirstTick(cfg, g);
        SimulatePrefix(cfg, g, 2, 1);
      }
      assert u == 0.0;
      Plant.RestIsFixed(cfg);
    } else {
      assert u == t.outputs[1];
    }
  }

  /** The first two ticks of any run: the first output and pose are 0; the
      second output is kp + ki*dt + kd/dt; and the second pose is still 0
      when the line was created with two or more elements, but already the
      pose one tick from rest under the second output (output*dt*dt) when
      it was created with zero or one. */
  lemma FirstTicks(cfg: Config, g: Gains)
    requires Valid(cfg)
    requires cfg.numSteps >= 2
    ensures Run(cfg, g).outputs[0] == 0.0 && Run(cfg, g).poses[0] == 0.0
    ensures Run(cfg, g).outputs[1] == g.kp + g.ki * cfg.dt + g.kd / cfg.dt
    ensures cfg.delaySteps >= 2 ==> Run(cfg, g).poses[1] == 0.0
    ensures cfg.delaySteps <= 1 ==> Run(cfg, g).poses[1] == Plant.Step(cfg, Plant.Rest, Run(cfg, g).outputs[1]).pose
  {
    var t, t2 := Run(cfg, g), Simulate(cfg, g, 2).trace;
    assert t.outputs[..2] == t2.outputs && t.poses[..2] == t2.poses by {
      SimulatePrefix(cfg, g, cfg.numSteps, 2);
    }
    assert t2.outputs[0] == 0.0 && t2.poses[0] == 0.0 by {
      FirstTick(cfg, g);
      SimulatePrefix(cfg, g, 2, 1);
      assert t2.outputs[..1] == [0.0] && t2.poses[..1] == [0.0];
    }
    assert t2.outputs[1] == g.kp + g.ki * cfg.dt + g.kd / cfg.dt by {
      SecondOutput(cfg, g);
    }
    assert cfg.delaySteps >= 2 ==> t2.poses[1] == 0.0 by {
      SecondPose(cfg, g);
    }
    assert cfg.delaySteps <= 1 ==> t2.poses[1] == Plant.Step(cfg, Plant.Rest, t2.outputs[1]).pose by {
      SecondPose(cfg, g);
    }
    assert t.outputs[0] == t2.outputs[0] && t.poses[0] == t2.poses[0];
    assert t.outputs[1] == t2.outputs[1] && t.poses[1] == t2.poses[1];
  }

  /** With a line of two or more elements, after two ticks the plant is
      still at rest and the controller holds integral dt and previous
      error 1 (the error at the second tick). */
  lemma SecondState(cfg: Config, g: Gains)
    requires Valid(cfg)
    requires cfg.delaySteps >= 2
    ensures Simulate(cfg, g, 2).last.pid == Controller.PidState(cfg.dt, 1.0)
    ensures Simulate(cfg, g, 2).last.plant == Plant.Rest
  {
    var s1 := Simulate(cfg, g, 1).last;
    assert s1.pid == Controller.Reset && s1.plant == Plant.Rest by {
      FirstTick(cfg, g);
    }
    var o := Tick(cfg, g, s1, 1);
    assert Simulate(cfg, g, 2).last == o.next by {
      SampleAt(cfg, g, 2, 1);
    }
    assert o.setpoint == 1.0;
    assert Simulate(cfg, g, 2).last.plant == Plant.Rest by {
      SecondPose(cfg, g);
      Plant.FromRest(cfg, 0.0);
      assert o.next.plant == Plant.Step(cfg, Plant.Rest, DelayLine.Push(s1.buf, o.output)[0]);
    }
  }

  /** The third tick with a line created as two zeros: the error is still 1,
      so the output is kp + 2*ki*dt (the derivative term vanishes), and the
      plant, at rest so far, receives the second output. */
  lemma ThirdTick(cfg: Config, g: Gains)
    requires Valid(cfg)
    requires cfg.delaySteps == 2 && cfg.numSteps >= 3
    ensures Run(cfg, g).outputs[2] == g.kp + g.ki * (2.0 * cfg.dt)
    ensures Run(cfg, g).poses[2] == Plant.Step(cfg, Plant.Rest, Run(cfg, g).outputs[1]).pose
  {
    var t := Run(cfg, g);
    var s2 := Simulate(cfg, g, 2).last;
    var o := Tick(cfg, g, s2, 2);
    SecondState(cfg, g);
    assert t.outputs[2] == o.output && t.poses[2] == o.pose by {
      SampleAt(cfg, g, cfg.numSteps, 2);
    }
    var c := Controller.Compute(g, cfg.dt, s2.pid, 1.0, 0.0);
    assert o.output == c.output;
    assert c.next.integral == 2.0 * cfg.dt;
    assert c.output == g.kp * 1.0 + g.ki * (2.0 * cfg.dt) + g.kd * (0.0 / cfg.dt);
    assert Simulate(cfg, g, 3).last.plant == Plant.Step(cfg, Plant.Rest, t.outputs[1]) by {
      AppliedInput(cfg, g, cfg.numSteps, 2);
    }
    assert o.pose == Simulate(cfg, g, 3).last.plant.pose by {
      SampleAt(cfg, g, 3, 2);
    }
  }

  /** A pinned run: dt 0.1, a line created with two zeros, at least three
      ticks, and a purely proportional controller with kp = 1 (whatever the
      spring and damping). The plant first moves at the third tick, driven
      by the output of the second. */
  lemma ProportionalScenario(cfg: Config, g: Gains)
    requires cfg.dt == 0.1 && cfg.delaySteps == 2 && cfg.numSteps >= 3
    requires g == Gains(1.0, 0.0, 0.0)
    ensures Valid(cfg)
    ensures Run(cfg, g).outputs[..3] == [0.0, 1.0, 1.0]
    ensures Run(cfg, g).poses[..3] == [0.0, 0.0, 0.01]
  {
    var t := Run(cfg, g);
    FirstTicks(cfg, g);
    ThirdTick(cfg, g);
    assert t.outputs[1] == 1.0;
    assert t.outputs[2] == 1.0;
    Plant.FromRest(cfg, 1.0);
    assert t.poses[2] == 0.01;
  }
}
