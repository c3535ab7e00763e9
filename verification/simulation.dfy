/** The simulation driver: one full run from the reset state, ticking the
    controller, then the delay line, then the plant, and recording four
    aligned series.
 */
module Simulation {
  import opened Params
  import Controller
  import Plant
  import DelayLine

  /** Everything that changes during a run. */
  datatype SimState = SimState(pid: Controller.PidState, plant: Plant.PlantState, buf: seq<real>)

  /** The four recorded series: time labels, setpoints, poses after each
      plant update, and the (undelayed) controller outputs. */
  datatype Trace = Trace(labels: seq<real>, setpoints: seq<real>, poses: seq<real>, outputs: seq<real>)
  {
    /** All four series have exactly `n` entries. */
    predicate Aligned(n: nat) {
      |labels| == n && |setpoints| == n && |poses| == n && |outputs| == n
    }

    /** The first `k` entries of every series. */
    function Take(k: nat): (t: Trace)
      requires k <= |labels| && k <= |setpoints| && k <= |poses| && k <= |outputs|
      ensures t.Aligned(k)
    {
      Trace(labels[..k], setpoints[..k], poses[..k], outputs[..k])
    }

    /** The trace with one tick's record appended to every series. */
    function Append(time: real, setpoint: real, pose: real, output: real): (t: Trace)
      ensures |t.labels| == |labels| + 1 && |t.setpoints| == |setpoints| + 1
      ensures |t.poses| == |poses| + 1 && |t.outputs| == |outputs| + 1
    {
      Trace(labels + [time], setpoints + [setpoint], poses + [pose], outputs + [output])
    }
  }

  /** Appending leaves every existing prefix of an aligned trace unchanged. */
  lemma TakeAppend(t: Trace, n: nat, k: nat, time: real, setpoint: real, pose: real, output: real)
    requires t.Aligned(n) && k <= n
    ensures t.Append(time, setpoint, pose, output).Take(k) == t.Take(k)
  {
    var a := t.Append(time, setpoint, pose, output);
    assert a.labels[..k] == t.labels[..k];
    assert a.setpoints[..k] == t.setpoints[..k];
    assert a.poses[..k] == t.poses[..k];
    assert a.outputs[..k] == t.outputs[..k];
  }

  /** Appending a tick's record extends the errors by that tick's error:
      its setpoint minus the last pose recorded before it. */
  lemma ErrorsAppend(t: Trace, n: nat, time: real, setpoint: real, pose: real, output: real)
    requires t.Aligned(n)
    ensures Errors(t.Append(time, setpoint, pose, output))
            == Errors(t) + [setpoint - Controller.Prior(t.poses, n)]
  {
    var a := t.Append(time, setpoint, pose, output);
    var e := Errors(a);
    forall i | 0 <= i < n
      ensures e[i] == Errors(t)[i]
    {
      assert Controller.Prior(a.poses, i) == Controller.Prior(t.poses, i);
    }
  }

  /** Taking a whole aligned trace gives the trace back. */
  lemma TakeAll(t: Trace, n: nat)
    requires t.Aligned(n)
    ensures t.Take(n) == t
  {
    assert t.labels[..n] == t.labels && t.setpoints[..n] == t.setpoints;
    assert t.poses[..n] == t.poses && t.outputs[..n] == t.outputs;
  }

  /** What one tick records, and the state after it. */
  datatype Sample = Sample(time: real, setpoint: real, pose: real, output: real, next: SimState)

  /** A trace so far and the state it leaves. */
  datatype Progress = Progress(trace: Trace, last: SimState)

  /** The state every run starts from, whatever a previous run left. */
  function Start(cfg: Config): (s: SimState)
    ensures s.pid == Controller.Reset && s.plant == Plant.Rest
    ensures |s.buf| == cfg.delaySteps
    ensures forall j :: 0 <= j < |s.buf| ==> s.buf[j] == 0.0
  {
    SimState(Controller.Reset, Plant.Rest, DelayLine.Zeros(cfg.delaySteps))
  }

  /** The setpoint at tick `i`: a unit step switched on strictly after time
      zero, so with a positive time step it is 0 at the first tick only. */
  function Setpoint(cfg: Config, i: nat): (r: real)
    ensures Valid(cfg) ==> r == if i == 0 then 0.0 else 1.0
  {
    var time := i as real * cfg.dt;
    if time > 0.0 then 1.0 else 0.0
  }

  /** One tick of a run. The controller sees the pose from BEFORE this
      tick's plant update; its output enters the delay line; the plant is
      driven by what the line hands over; the recorded pose is the one AFTER
      the plant update and the recorded output is the undelayed one. */
  function Tick(cfg: Config, g: Gains, s: SimState, i: nat): (r: Sample)
    requires Valid(cfg)
    ensures r.time == i as real * cfg.dt && r.setpoint == Setpoint(cfg, i)
    ensures var c := Controller.Compute(g, cfg.dt, s.pid, r.setpoint, s.plant.pose);
      && r.output == c.output
      && r.next.pid == c.next
    ensures var line := DelayLine.Push(s.buf, r.output);
      && r.next.buf == line
      && r.next.plant == Plant.Step(cfg, s.plant, line[0])
    ensures r.pose == r.next.plant.pose
  {
    var time := i as real * cfg.dt;
    var setpoint := Setpoint(cfg, i);
    var c := Controller.Compute(g, cfg.dt, s.pid, setpoint, s.plant.pose);
    var line := DelayLine.Push(s.buf, c.output);
    var p := Plant.Step(cfg, s.plant, line[0]);
    Sample(time, setpoint, p.pose, c.output, SimState(c.next, p, line))
  }

  /** The first `n` ticks of a run from the reset state. */
  function Simulate(cfg: Config, g: Gains, n: nat): (p: Progress)
    requires Valid(cfg)
    ensures p.trace.Aligned(n)
    decreases n
  {
    if n == 0 then Progress(Trace([], [], [], []), Start(cfg))
    else
      var before := Simulate(cfg, g, n - 1);
      var o := Tick(cfg, g, before.last, n - 1);
      Progress(before.trace.Append(o.time, o.setpoint, o.pose, o.output), o.next)
  }

  /** A full run: `numSteps` ticks from the reset state. */
  function Run(cfg: Config, g: Gains): (t: Trace)
    requires Valid(cfg)
    ensures t.Aligned(cfg.numSteps)
  {
    Simulate(cfg, g, cfg.numSteps).trace
  }

  /** The error the controller saw at each tick: the setpoint minus the pose
      recorded at the tick before (zero before the first tick). */
  function Errors(t: Trace): (e: seq<real>)
    requires |t.setpoints| == |t.poses|
    ensures |e| == |t.setpoints|
  {
    seq(|t.setpoints|, i requires 0 <= i < |t.setpoints| =>
      t.setpoints[i] - Controller.Prior(t.poses, i))
  }
}
