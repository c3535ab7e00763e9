/** The plant: a unit-mass spring-damper advanced by semi-implicit Euler. */
module Plant {
  import opened Params

  /** Position and velocity of the plant. */
  datatype PlantState = PlantState(pose: real, vel: real)

  /** The state every run starts from. */
  const Rest: PlantState := PlantState(0.0, 0.0)

  /** Acceleration of the unit mass under input `u`: the input minus the
      damping and restoring forces. */
  function Accel(cfg: Config, s: PlantState, u: real): (a: real)
    ensures a + cfg.damping * s.vel + cfg.spring * s.pose == u
  {
    u - cfg.damping * s.vel - cfg.spring * s.pose
  }

  /** One plant tick under the (delayed) input `u`: the velocity is advanced
      first, and the pose is then advanced with the NEW velocity. */
  function Step(cfg: Config, s: PlantState, u: real): (r: PlantState)
    ensures r.vel - s.vel == Accel(cfg, s, u) * cfg.dt
    ensures r.pose - s.pose == r.vel * cfg.dt
  {
    var acc := u - cfg.damping * s.vel - cfg.spring * s.pose;
    var newVel := s.vel + acc * cfg.dt;
    var newPose := s.pose + newVel * cfg.dt;
    PlantState(newPose, newVel)
  }

  /** The same tick written as one affine map of (pose, vel, u): the state
      transition matrix of the discretised plant. */
  lemma MatrixForm(cfg: Config, s: PlantState, u: real)
    ensures var dt, k, c := cfg.dt, cfg.spring, cfg.damping;
      && Step(cfg, s, u).vel == (- k * dt) * s.pose + (1.0 - c * dt) * s.vel + dt * u
      && Step(cfg, s, u).pose
           == (1.0 - k * dt * dt) * s.pose + dt * (1.0 - c * dt) * s.vel + dt * dt * u
  {
    var dt, k, c := cfg.dt, cfg.spring, cfg.damping;
    var a := Accel(cfg, s, u);
    assert a * dt == u * dt - c * s.vel * dt - k * s.pose * dt;
    var v := Step(cfg, s, u).vel;
    assert v * dt == s.vel * dt + a * dt * dt;
    assert a * dt * dt == u * dt * dt - c * s.vel * dt * dt - k * s.pose * dt * dt;
  }

  /** Fully explicit (forward) Euler, which advances the pose with the OLD
      velocity; the simulator does not use it. */
  function ExplicitStep(cfg: Config, s: PlantState, u: real): PlantState {
    PlantState(s.pose + s.vel * cfg.dt, s.vel + Accel(cfg, s, u) * cfg.dt)
  }

  /** Semi-implicit and explicit Euler agree on the velocity, and their poses
      differ by exactly acceleration times dt squared: with a positive time
      step they agree on the pose exactly when the acceleration is zero. */
  lemma SemiImplicitVersusExplicit(cfg: Config, s: PlantState, u: real)
    requires Valid(cfg)
    ensures Step(cfg, s, u).vel == ExplicitStep(cfg, s, u).vel
    ensures Step(cfg, s, u).pose - ExplicitStep(cfg, s, u).pose
            == Accel(cfg, s, u) * cfg.dt * cfg.dt
    ensures Step(cfg, s, u).pose == ExplicitStep(cfg, s, u).pose <==> Accel(cfg, s, u) == 0.0
  {
    var a, dt := Accel(cfg, s, u), cfg.dt;
    var diff := Step(cfg, s, u).pose - ExplicitStep(cfg, s, u).pose;
    assert diff == (s.vel + a * dt) * dt - s.vel * dt;
    assert diff == a * dt * dt;
    assert dt * dt > 0.0;
    if a != 0.0 {
      NonzeroProduct(a, dt);
      NonzeroProduct(a * dt, dt);
    }
  }

  /** With no input, a plant at rest stays at rest. */
  lemma RestIsFixed(cfg: Config)
    ensures Step(cfg, Rest, 0.0) == Rest
  {
  }

  /** From rest, one tick under input `u` reaches velocity u*dt and pose
      u*dt*dt: the new velocity already moves the pose. */
  lemma FromRest(cfg: Config, u: real)
    ensures Step(cfg, Rest, u) == PlantState(u * cfg.dt * cfg.dt, u * cfg.dt)
  {
  }

  /** Linear combination of two plant states. */
  function Mix(a: real, s: PlantState, b: real, t: PlantState): PlantState {
    PlantState(a * s.pose + b * t.pose, a * s.vel + b * t.vel)
  }

  /** Scaling a linear combination scales each of its terms. */
  lemma ScaleMix(d: real, a: real, x: real, b: real, y: real)
    ensures d * (a * x + b * y) == a * (d * x) + b * (d * y)
  {
  }

  /** A product of non-zero reals is non-zero. */
  lemma NonzeroProduct(x: real, y: real)
    requires x != 0.0 && y != 0.0
    ensures x * y != 0.0
  {
  }

  /** The acceleration is linear in the state and the input together. */
  lemma AccelLinear(cfg: Config, a: real, s: PlantState, u: real, b: real, t: PlantState, w: real)
    ensures Accel(cfg, Mix(a, s, b, t), a * u + b * w) == a * Accel(cfg, s, u) + b * Accel(cfg, t, w)
  {
    ScaleMix(cfg.damping, a, s.vel, b, t.vel);
    ScaleMix(cfg.spring, a, s.pose, b, t.pose);
  }

  /** The new velocity is linear in the state and the input together. */
  lemma VelocityLinear(cfg: Config, a: real, s: PlantState, u: real, b: real, t: PlantState, w: real)
    ensures Step(cfg, Mix(a, s, b, t), a * u + b * w).vel == a * Step(cfg, s, u).vel + b * Step(cfg, t, w).vel
  {
    var accS, accT := Accel(cfg, s, u), Accel(cfg, t, w);
    AccelLinear(cfg, a, s, u, b, t, w);
    ScaleMix(cfg.dt, a, accS, b, accT);
  }

  /** The new pose is linear in the state and the input together. */
  lemma PoseLinear(cfg: Config, a: real, s: PlantState, u: real, b: real, t: PlantState, w: real)
    ensures Step(cfg, Mix(a, s, b, t), a * u + b * w).pose == a * Step(cfg, s, u).pose + b * Step(cfg, t, w).pose
  {
    var ms, ss, ts := Step(cfg, Mix(a, s, b, t), a * u + b * w), Step(cfg, s, u), Step(cfg, t, w);
    VelocityLinear(cfg, a, s, u, b, t, w);
    ScaleMix(cfg.dt, a, ss.vel, b, ts.vel);
    assert ms.vel * cfg.dt == a * (ss.vel * cfg.dt) + b * (ts.vel * cfg.dt);
  }

  /** Superposition: the plant tick is linear in the state and the input
      together, so responses to combined inputs combine in the same way. */
  lemma Superposition(cfg: Config, a: real, s: PlantState, u: real, b: real, t: PlantState, w: real)
    ensures Step(cfg, Mix(a, s, b, t), a * u + b * w) == Mix(a, Step(cfg, s, u), b, Step(cfg, t, w))
  {
    var ms, rhs := Step(cfg, Mix(a, s, b, t), a * u + b * w), Mix(a, Step(cfg, s, u), b, Step(cfg, t, w));
    assert ms.vel == rhs.vel by {
      VelocityLinear(cfg, a, s, u, b, t, w);
    }
    assert ms.pose == rhs.pose by {
      PoseLinear(cfg, a, s, u, b, t, w);
    }
  }
}
