# PID step-response simulator, modelled in Dafny

The simulator is an interactive page that shows how a PID controller drives
a damped spring-mass plant towards a unit step. Its core is the
`PIDSimulator` class in `docs/assets/pid-sim.js`:

- the constants fixed by the constructor: time step 0.1 s, horizon 300 s,
  `numSteps = floor(maxTime / dt)` = 3000 ticks, a delay array of 10,
  spring 0.1 and damping 0.5, with all gains and the controller state zero;
- `computePID`: one controller tick with a rectangle-rule integral, a
  backward-difference derivative and an unclamped output;
- `updatePlant`: one semi-implicit Euler tick of the plant, where the new
  velocity is used to advance the pose;
- the actuation delay array. A run creates it as `delaySteps` zeros. Each
  tick does `shift()`, then `push(u)`, then reads element 0;
- `computeFullSimulation`: resets the plant, the delay array and the
  controller, then runs `numSteps` ticks. Each tick computes the setpoint,
  calls the controller on the pose from before the tick, pushes the output
  into the delay array, drives the plant with what the array hands over,
  and records four series: time, setpoint, pose after the update, and the
  undelayed output;
- a slider moving one gain and triggering a full recomputation.

The model uses mathematical reals throughout. It consists of these modules:

- `Params`: the configuration, the gains and the default constants.
- `Controller`: the PID tick, and a controller driven over a sequence of
  errors. Its partner is the positional (closed) form of the PID law.
- `Plant`: the plant tick. Its partners are the matrix form, explicit
  Euler and superposition.
- `DelayLine`: the shift-push-read array. Its partner is a reference
  sequence delayed by a fixed lag.
- `Simulation`: the tick and the run as pure functions.
- `SimulationProps`: properties of a run.
- `Simulator`: the object's view. This is the recomputation loop written
  over the same local variables as the JavaScript, proved equal to the
  functional run.

The delay is one tick shorter than its length suggests. The source's
comment calls the 10-element array "~1s delay" (`docs/assets/pid-sim.js:9`).
The code shifts before it pushes and then reads element 0, so a line of
N >= 1 zeros hands over the output of tick `i - (N - 1)`. The model follows
the code: `DelayLine.Lag(n)` is `n - 1`, or 0 when n = 0.

- The default array of 10 therefore delays by 9 ticks, which is 0.9 s.
- `shift()` on an empty array does nothing. So an array created with 0
  elements grows to 1 element at the first tick. From then on it behaves
  exactly like an array of 1: no delay.
- With N = 2, kp = 1 and dt = 0.1, the plant first moves at tick 2
  (counting from 0), to pose 0.01, driven by the output of tick 1.
  `SimulationProps.ProportionalScenario` pins that case.

## Model

| member | source | states |
|---|---|---|
| Params.StepCount | docs/assets/pid-sim.js:4-6 | the step count is the floor of horizon over time step: n whole steps fit in the horizon and n + 1 do not |
| Params.DefaultConfig | docs/assets/pid-sim.js:4-22 | the constructor's constants are a valid configuration; floor(300 / 0.1) = 3000 ticks; the delay array has 10 elements |
| Controller.Compute | docs/assets/pid-sim.js:125-132 | the integral grows by exactly error times dt; the remembered error becomes this tick's error; the output is the unclamped gain-weighted sum of error, new integral and backward difference over dt |
| Controller.OnlyErrorMatters | docs/assets/pid-sim.js:126-130 | a tick depends on the setpoint and the pose only through their difference |
| Controller.Drive | docs/assets/pid-sim.js:125-132 | a controller fed k errors produces k outputs and remembers the last error |
| Controller.DriveSnoc | docs/assets/pid-sim.js:125-132 | feeding one more error runs exactly one more tick on the state the earlier errors left |
| Controller.DriveStep | docs/assets/pid-sim.js:125-132 | a controller in step with its history stays in step after a tick at any setpoint and pose |
| Controller.AccumulatedState | docs/assets/pid-sim.js:125-132 | after a reset, the integral is the rectangle-rule integral of all errors so far, and the remembered error is the last one (0 before any tick) |
| Controller.DrivePrefix | docs/assets/pid-sim.js:125-132 | a controller's outputs on a prefix of the errors are the same prefix of its outputs |
| Controller.NewestOutput | docs/assets/pid-sim.js:125-132 | the newest output in positional form: the PID law on the newest error, the integral of all errors, and the error before it |
| Controller.OutputAt | docs/assets/pid-sim.js:125-132 | output i in positional form, from errors 0..i only |
| Controller.PositionalForm | docs/assets/pid-sim.js:125-132 | every output of a freshly reset controller equals the positional PID law on its error history |
| Plant.Accel | docs/assets/pid-sim.js:136 | Newton's law for a unit mass: the acceleration plus the damping and spring forces balances the input |
| Plant.Step | docs/assets/pid-sim.js:134-140 | the velocity changes by acceleration times dt; the pose changes by the NEW velocity times dt |
| Plant.MatrixForm | docs/assets/pid-sim.js:136-138 | the tick as the affine state-transition map of the discretised spring-damper, with its coefficients written out |
| Plant.SemiImplicitVersusExplicit | docs/assets/pid-sim.js:137-138 | semi-implicit and explicit Euler give the same velocity; their poses differ by acceleration times dt squared, so they agree exactly when the acceleration is zero |
| Plant.RestIsFixed | docs/assets/pid-sim.js:136-139 | with no input, a plant at rest stays at rest |
| Plant.FromRest | docs/assets/pid-sim.js:136-139 | one tick from rest under input u reaches velocity u*dt and pose u*dt*dt |
| Plant.AccelLinear | docs/assets/pid-sim.js:136 | the acceleration is linear in state and input together |
| Plant.VelocityLinear | docs/assets/pid-sim.js:136-137 | the new velocity is linear in state and input together |
| Plant.PoseLinear | docs/assets/pid-sim.js:136-138 | the new pose is linear in state and input together |
| Plant.Superposition | docs/assets/pid-sim.js:136-139 | the tick maps a linear combination of states and inputs to the same combination of the results |
| DelayLine.Zeros | docs/assets/pid-sim.js:146 | the line as a run creates it has delaySteps elements, every one of them 0 |
| DelayLine.Shift | docs/assets/pid-sim.js:165 | removing the first element: a non-empty line loses exactly its first element and keeps the rest in order; an empty line stays empty |
| DelayLine.Push | docs/assets/pid-sim.js:165-167 | a tick keeps a non-empty line's length and grows an empty one to 1; the new value sits last; the element handed over is the old second element, or the new value when the line had at most one |
| DelayLine.Line | docs/assets/pid-sim.js:165-166 | feeding values keeps a non-empty line's length; an empty line holds one element once fed |
| DelayLine.Window | docs/assets/pid-sim.js:165-167 | a line created with n >= 1 zeros always holds the last n values of the zero-prefixed input, in order |
| DelayLine.EmptyLine | docs/assets/pid-sim.js:165-166 | a line created empty holds just the newest value once fed |
| DelayLine.ExactLag | docs/assets/pid-sim.js:165-167 | the value handed over at tick i equals the reference delay of the inputs by Lag(n) ticks, with zeros before that |
| DelayLine.Immediate | docs/assets/pid-sim.js:165-167 | a line created with 0 or 1 elements hands over each value at the tick it is pushed |
| DelayLine.TapAt | docs/assets/pid-sim.js:165-167 | a line created with n >= 1 zeros hands over 0 while i + 1 < n, and input i - (n - 1) from then on |
| Simulation.Start | docs/assets/pid-sim.js:143-148 | the state every run starts from, whatever an earlier run left: the controller reset (integral and previous error 0), the plant at rest, and a line of delaySteps zeros |
| Simulation.Setpoint | docs/assets/pid-sim.js:158-159 | with a positive time step the setpoint is 0 at tick 0 and 1 at every later tick |
| Simulation.Tick | docs/assets/pid-sim.js:158-178 | tick i records time i*dt and the step setpoint; update order within a tick: the controller sees the pose from before the plant update; its output is pushed into the line; the plant is driven by the line's first element; the recorded pose is the one after the update and the recorded output is the undelayed one |
| Simulation.Simulate | docs/assets/pid-sim.js:142-179 | k ticks from the reset state record four series of exactly k entries |
| Simulation.Run | docs/assets/pid-sim.js:142-179 | a run records four series of exactly numSteps entries |
| Simulation.Errors | docs/assets/pid-sim.js:157-162 | one recorded error per tick |
| SimulationProps.SimulatePrefix | docs/assets/pid-sim.js:157-179 | a shorter run records exactly a prefix of a longer one |
| SimulationProps.SampleAt | docs/assets/pid-sim.js:157-179 | entry i of every series is what tick i records from the state the first i ticks leave |
| SimulationProps.ShapeAt | docs/assets/pid-sim.js:158-176 | tick i records time i*dt and setpoint 0 at i = 0, 1 otherwise |
| SimulationProps.TraceShape | docs/assets/pid-sim.js:157-176 | over a whole run, the time labels are i*dt and the setpoint is a unit step switched on after the first tick |
| SimulationProps.PoseTracks | docs/assets/pid-sim.js:162-177 | the pose the controller sees at a tick is the pose recorded at the tick before (0 at the first) |
| SimulationProps.BufferTracksOutputs | docs/assets/pid-sim.js:146-178 | after k ticks the delay array is the reset line fed the recorded (undelayed) outputs |
| SimulationProps.BufferLength | docs/assets/pid-sim.js:146-166 | a line created with delaySteps > 0 elements keeps that length through a run; one created empty holds 1 element from the first tick on |
| SimulationProps.AppliedInput | docs/assets/pid-sim.js:165-172 | the plant at tick i is driven by the recorded output from Lag(delaySteps) ticks earlier, and by 0 before that |
| SimulationProps.ErrorsStep | docs/assets/pid-sim.js:157-162 | each tick appends exactly one error: its setpoint minus the pose before the tick |
| SimulationProps.TracksStep | docs/assets/pid-sim.js:162 | one tick keeps the controller state and the recorded outputs in step with a controller driven by the recorded errors |
| SimulationProps.ControllerTracks | docs/assets/pid-sim.js:147-162 | after any number of ticks, the controller is a freshly reset controller fed the recorded errors, and its outputs are the recorded outputs |
| SimulationProps.OutputClosedForm | docs/assets/pid-sim.js:125-178 | every recorded output equals the positional PID law on the recorded errors: error i, the rectangle-rule integral of errors 0..i, and error i - 1 |
| SimulationProps.ZeroGainsQuiet | docs/assets/pid-sim.js:129-178 | with all gains zero, after any number of ticks the plant is at rest, the line holds only zeros, and every recorded output and pose is 0 |
| SimulationProps.ZeroGainsRun | docs/assets/pid-sim.js:129-178 | a run with all gains zero records only zero outputs and poses, and the plant stays exactly at rest after every tick |
| SimulationProps.FirstTick | docs/assets/pid-sim.js:157-178 | the first tick outputs 0, records pose 0, leaves the controller in its reset state and the plant at rest |
| SimulationProps.SecondOutput | docs/assets/pid-sim.js:125-162 | the second output is kp + ki*dt + kd/dt |
| SimulationProps.SecondPose | docs/assets/pid-sim.js:165-172 | the second pose is 0 for a line of 2 or more elements, and one step from rest under the second output for a line of 0 or 1 |
| SimulationProps.FirstTicks | docs/assets/pid-sim.js:157-178 | the first two entries of any run of at least two ticks, for every gain and every line length |
| SimulationProps.SecondState | docs/assets/pid-sim.js:125-172 | with a line of 2 or more, after two ticks the controller holds integral dt and previous error 1, and the plant is still at rest |
| SimulationProps.ThirdTick | docs/assets/pid-sim.js:125-178 | with a line of 2, the third output is kp + 2*ki*dt, and the third pose is one step from rest under the second output |
| SimulationProps.ProportionalScenario | docs/assets/pid-sim.js:157-178 | dt 0.1, a line of 2 and kp = 1 give outputs 0, 1, 1 and poses 0, 0, 0.01 for the first three ticks |
| Simulator.TickInPlace | docs/assets/pid-sim.js:158-172 | the loop body on the loop's own variables, with the array's shift, push and read, performs exactly the model's tick |
| Simulator.ComputeFullSimulation | docs/assets/pid-sim.js:142-179 | the recomputation loop returns exactly the functional run for the object's constants and gains, whatever integral and previous error an earlier run left; afterwards the fields hold the last tick's controller state |
| Simulator.Construct | docs/assets/pid-sim.js:3-22 | construction uses the default constants and zero gains, records the run for them (3000 ticks of exactly zero output and pose), and leaves the last tick's controller state in the fields |
| Simulator.Initialise | docs/assets/pid-sim.js:12-18 | construction with any valid constants records the zero-gain run, which holds only zero outputs and poses, and leaves the last tick's controller state in the fields |
| Simulator.WithGain | docs/assets/pid-sim.js:104-113 | a slider sets exactly the gain it controls and keeps the other two |
| Simulator.UpdateAndCompute | docs/assets/pid-sim.js:102-118 | moving a slider changes one gain and yields the run a fresh simulator with the new gains would record |

## Left out

- The chart (`docs/assets/pid-sim.js:24-88`, `92`, `181-185`, `117`): rendering only. The trace handed to it is modelled.
- The DOM: reading the slider elements, `parseFloat` of their text, the value labels, and the bootstrap on page load (`95-101`, `105-112`, `120-122`, `190-192`). A slider move is modelled as a slider name and a real value.
- A slider event whose element id matches none of the three branches of the handler (`104-113`); such an event would change no gain and still recompute. Listeners are attached only to the kp, ki and kd sliders (`120-122`), so it cannot occur.
- `toFixed(1)` on the time labels (`175`): a label is modelled as the time value `i * dt` itself, not as its decimal text.
- IEEE-754 double arithmetic: all quantities are mathematical reals. Rounding, overflow to Infinity and NaN are not modelled.
- `Params.StepCount`: `Math.floor` of a floating-point quotient is modelled as the floor of the exact real quotient. The floating-point quotient of 300 / 0.1 is not modelled. `numSteps` is a configuration field, and `Params.DefaultConfig` relates its default of 3000 to the horizon.
- Configuration validation: the only assumption the simulation needs, `dt > 0`, is a precondition (`Params.Valid`). Non-positive horizons simply give zero ticks.
- Simulation.Simulate: its contract states only the lengths of the series. Their contents are stated by the `SimulationProps` lemmas about it.
