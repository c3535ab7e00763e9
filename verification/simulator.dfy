/** The simulator object: its constants, its current gains, and the
    controller state it keeps as fields, with the full-run recomputation
    written as the loop the object runs.
 */
module Simulator {
  import opened Params
  import Controller
  import Plant
  import DelayLine
  import opened Simulation
  import SimulationProps

  /** The object's numeric fields: the fixed constants, the gains, and the
      controller's integral and previous error, which outlive a run. */
  datatype Simulator = Simulator(cfg: Config, gains: Gains, integral: real, prevError: real)

  /** The controller state kept in the object's fields. */
  function PidOf(sim: Simulator): Controller.PidState {
    Controller.PidState(sim.integral, sim.prevError)
  }

  /** One iteration of the recomputation loop, on the loop's own variables:
      the setpoint, the controller call (which updates the integral and
      previous-error fields), the shift-push-read of the delay array, and the
      plant call. It performs exactly the model's tick. */
  method TickInPlace(cfg: Config, g: Gains, i: nat, integral: real, prevError: real,
                     pose: real, vel: real, delayBuffer: seq<real>)
    returns (time: real, setpoint: real, u: real, integral': real, prevError': real,
             pose': real, vel': real, delayBuffer': seq<real>)
    requires Valid(cfg)
    ensures Tick(cfg, g, SimState(Controller.PidState(integral, prevError),
                                  Plant.PlantState(pose, vel), delayBuffer), i)
      == Sample(time, setpoint, pose', u,
                SimState(Controller.PidState(integral', prevError'),
                         Plant.PlantState(pose', vel'), delayBuffer'))
  {
    time := i as real * cfg.dt;
    setpoint := if time > 0.0 then 1.0 else 0.0;
    var c := Controller.Compute(g, cfg.dt, Controller.PidState(integral, prevError), setpoint, pose);
    u := c.output;
    integral', prevError' := c.next.integral, c.next.prevError;
    delayBuffer' := DelayLine.Shift(delayBuffer);
    delayBuffer' := delayBuffer' + [u];
    var uDelayed := delayBuffer'[0];
    var p := Plant.Step(cfg, Plant.PlantState(pose, vel), uDelayed);
    pose', vel' := p.pose, p.vel;
  }

  /** Recomputes the whole trace. Every local starts from zero and the
      controller fields are reset first, so the trace is the run determined
      by the constants and the gains alone: whatever integral and previous
      error an earlier run left behind has no influence. Afterwards the
      fields hold the controller state of the last tick. */
  method ComputeFullSimulation(sim: Simulator) returns (after: Simulator, trace: Trace)
    requires Valid(sim.cfg)
    ensures trace == Run(sim.cfg, sim.gains)
    ensures trace.Aligned(sim.cfg.numSteps)
    ensures after.cfg == sim.cfg && after.gains == sim.gains
    ensures PidOf(after) == Simulate(sim.cfg, sim.gains, sim.cfg.numSteps).last.pid
  {
    var cfg, g := sim.cfg, sim.gains;
    var pose, vel := 0.0, 0.0;
    var delayBuffer := DelayLine.Zeros(cfg.delaySteps);
    var integral, prevError := 0.0, 0.0;
    var labels, setpoints, poses, outputs := [], [], [], [];
    var i := 0;
    while i < cfg.numSteps
      invariant 0 <= i <= cfg.numSteps
      invariant Simulate(cfg, g, i)
        == Progress(Trace(labels, setpoints, poses, outputs),
                    SimState(Controller.PidState(integral, prevError), Plant.PlantState(pose, vel), delayBuffer))
      decreases cfg.numSteps - i
    {
      var time, setpoint, u;
      time, setpoint, u, integral, prevError, pose, vel, delayBuffer :=
        TickInPlace(cfg, g, i, integral, prevError, pose, vel, delayBuffer);
      labels := labels + [time];
      setpoints := setpoints + [setpoint];
      poses := poses + [pose];
      outputs := outputs + [u];
      i := i + 1;
    }
    trace := Trace(labels, setpoints, poses, outputs);
    after := sim.(integral := integral, prevError := prevError);
  }

  /** Construction sets the default constants, zero gains and a zero
      controller state, and runs one full simulation: with all gains zero
      every recorded output and pose is exactly zero. */
  method Construct() returns (sim: Simulator, trace: Trace)
    ensures sim.cfg == Default && sim.gains == InitialGains
    ensures trace == Run(sim.cfg, sim.gains)
    ensures PidOf(sim) == Simulate(sim.cfg, sim.gains, sim.cfg.numSteps).last.pid
    ensures trace.Aligned(sim.cfg.numSteps)
    ensures forall i :: 0 <= i < sim.cfg.numSteps ==> trace.outputs[i] == 0.0 && trace.poses[i] == 0.0
  {
    sim, trace := Initialise(Default);
  }

  /** Construction with given constants: zero gains, zero controller state,
      then one full run, which with all gains zero records only zeros. */
  method Initialise(constants: Config) returns (sim: Simulator, trace: Trace)
    requires Valid(constants)
    ensures sim.cfg == constants && sim.gains == InitialGains
    ensures trace == Run(sim.cfg, sim.gains)
    ensures PidOf(sim) == Simulate(sim.cfg, sim.gains, sim.cfg.numSteps).last.pid
    ensures trace.Aligned(constants.numSteps)
    ensures forall i :: 0 <= i < constants.numSteps ==> trace.outputs[i] == 0.0 && trace.poses[i] == 0.0
  {
    sim, trace := ComputeFullSimulation(Simulator(constants, InitialGains, 0.0, 0.0));
    SimulationProps.ZeroGainsRun(constants);
  }

  /** The three gain sliders. */
  datatype Slider = Kp | Ki | Kd

  /** The gains with the one a slider controls set to `value`. */
  function WithGain(g: Gains, slider: Slider, value: real): (r: Gains)
    ensures slider == Kp ==> r.kp == value && r.ki == g.ki && r.kd == g.kd
    ensures slider == Ki ==> r.ki == value && r.kp == g.kp && r.kd == g.kd
    ensures slider == Kd ==> r.kd == value && r.kp == g.kp && r.ki == g.ki
  {
    match slider
    case Kp => g.(kp := value)
    case Ki => g.(ki := value)
    case Kd => g.(kd := value)
  }

  /** Moving a slider: the one gain it controls takes the new value, the
      other two are kept, and the whole trace is recomputed for the new
      gains, so it is the same as for a simulator freshly built with them. */
  method UpdateAndCompute(sim: Simulator, slider: Slider, value: real) returns (after: Simulator, trace: Trace)
    requires Valid(sim.cfg)
    ensures after.cfg == sim.cfg && after.gains == WithGain(sim.gains, slider, value)
    ensures trace == Run(sim.cfg, after.gains)
    ensures PidOf(after) == Simulate(sim.cfg, after.gains, sim.cfg.numSteps).last.pid
  {
    var moved := sim.(gains := WithGain(sim.gains, slider, value));
    after, trace := ComputeFullSimulation(moved);
  }
}
