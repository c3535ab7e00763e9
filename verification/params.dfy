/** Fixed configuration and user-set gains of the PID step-response simulator.

    All quantities are modelled as mathematical reals: the recurrences of the
    simulation are exact here, and nothing is claimed about IEEE-754 rounding.
 */
module Params {

  /** The configuration fixed when the simulator is constructed.
      `numSteps` is the number of ticks of one run; `delaySteps` the length
      the actuation delay line is created with. */
  datatype Config = Config(
    dt: real,          // time step, seconds
    maxTime: real,     // horizon, seconds
    numSteps: nat,     // ticks per run
    delaySteps: nat,   // initial length of the delay line
    spring: real,      // restoring-force coefficient of the plant
    damping: real      // velocity-damping coefficient of the plant
  )

  /** Controller gains; any sign and size. */
  datatype Gains = Gains(kp: real, ki: real, kd: real)

  /** The only configuration requirement the simulation relies on: the
      derivative term divides by `dt`. */
  predicate Valid(cfg: Config) {
    cfg.dt > 0.0
  }

  /** The constants the simulator is constructed with. */
  const Default: Config := Config(0.1, 300.0, 3000, 10, 0.1, 0.5)

  /** The gains the simulator is constructed with. */
  const InitialGains: Gains := Gains(0.0, 0.0, 0.0)

  /** Number of whole time steps that fit in a horizon. */
  function StepCount(maxTime: real, dt: real): (n: int)
    requires dt > 0.0
    ensures n as real * dt <= maxTime
    ensures maxTime < (n + 1) as real * dt
  {
    var q := maxTime / dt;
    var f := q.Floor;
    var lo, hi := f as real, (f + 1) as real;
    assert lo <= q < hi;
    assert q * dt == maxTime;
    assert q * dt - lo * dt == (q - lo) * dt;
    assert (q - lo) * dt >= 0.0;
    assert hi * dt - q * dt == (hi - q) * dt;
    assert (hi - q) * dt > 0.0;
    assert hi * dt > maxTime;
    f
  }

  /** The default configuration is valid and its step count is the number of
      whole time steps in its horizon, with a ten-step delay line. */
  lemma DefaultConfig()
    ensures Valid(Default)
    ensures Default.numSteps == StepCount(Default.maxTime, Default.dt) == 3000
    ensures Default.delaySteps == 10
  {
    assert 300.0 / 0.1 == 3000.0;
  }
}
