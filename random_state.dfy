/** RandomState: the state setter that starts an episode with the ball and
    every car at a random place, and optionally with random velocities.

    Every random draw is a parameter: a BallDraws record for the ball and one
    CarDraws record per car, each value in the range its distribution can
    produce (uniform and triangular draws in their closed range, `random()` in
    [0, 1), `rand_uvec3()` a unit vector). A velocity draw is ignored when its
    gate fails. The game's common values are not fixed here: they form a
    CommonValues record whose Valid predicate gives the orderings the sampling
    ranges rely on. */
module RandomState {
  import opened StateWrapper

  /** Values the source takes from the game's common values. */
  datatype CommonValues = CommonValues(
    sideWallX: real, backWallY: real, cornerCathetusLength: real, ceilingZ: real, ballRadius: real,
    carMaxSpeed: real, carMaxAngVel: real, ballMaxSpeed: real, ballMaxAngVel: real, pi: real)
  {
    /** Every sampling range is non-empty, and the triangular ones are not
        degenerate (numpy's triangular rejects left == right). */
    predicate Valid()
    {
      && XMax(this) > 0.0 && YMax(this) > 0.0
      && ballRadius < ZMaxBall(this) && CarMargin < ZMaxBall(this)
      && carMaxSpeed > 0.0 && carMaxAngVel > 0.0 && ballMaxSpeed > 0.0 && ballMaxAngVel > 0.0
      && pi > 0.0
    }
  }

  /** So that a car fits inside the field whatever its rotation. */
  const CarMargin: real := 100.0

  function XMax(cv: CommonValues): real { cv.sideWallX - cv.cornerCathetusLength / 2.0 - CarMargin }
  function YMax(cv: CommonValues): real { cv.backWallY - cv.cornerCathetusLength / 2.0 - CarMargin }
  function ZMaxBall(cv: CommonValues): real { cv.ceilingZ - cv.ballRadius }
  /** Defined by the source but used by none of its samplers. */
  function ZMaxCar(cv: CommonValues): real { cv.ceilingZ - CarMargin }
  function PitchMax(cv: CommonValues): real { cv.pi / 2.0 }
  function YawMax(cv: CommonValues): real { cv.pi }
  function RollMax(cv: CommonValues): real { cv.pi }

  /** The height of a car resting on the ground. */
  const GroundZ: real := 17.0

  /** The squared magnitude of a vector. */
  function NormSq(v: Vec3): real { v.x * v.x + v.y * v.y + v.z * v.z }

  /** A magnitude times a direction. */
  function Scale(s: real, v: Vec3): Vec3 { Vec3(s * v.x, s * v.y, s * v.z) }

  /** A magnitude in [0, m] times a unit vector has magnitude at most m. */
  lemma ScaledUnitNormBound(s: real, u: Vec3, m: real)
    requires NormSq(u) == 1.0 && 0.0 <= s <= m
    ensures NormSq(Scale(s, u)) <= m * m
  {
  }

  /** Zeroing some axes of a vector does not make it longer. */
  lemma ZeroingAxesShrinks(v: Vec3, x': Option<real>, y': Option<real>, z': Option<real>)
    requires x' == None || x' == Some(0.0)
    requires y' == None || y' == Some(0.0)
    requires z' == None || z' == Some(0.0)
    ensures NormSq(v.Set(x', y', z')) <= NormSq(v)
  {
    var w := v.Set(x', y', z');
    ZeroOrKeptSquare(x', v.x);
    ZeroOrKeptSquare(y', v.y);
    ZeroOrKeptSquare(z', v.z);
    SumLe(v.x * v.x, v.y * v.y, v.z * v.z, w.x * w.x, w.y * w.y, w.z * w.z);
  }

  /** One axis of ZeroingAxesShrinks. */
  lemma ZeroOrKeptSquare(given: Option<real>, current: real)
    requires given == None || given == Some(0.0)
    ensures Pick(given, current) * Pick(given, current) <= current * current
  {
  }

  /** Keeps the sum step of ZeroingAxesShrinks linear for the solver. */
  lemma SumLe(a: real, b: real, c: real, a': real, b': real, c': real)
    requires a' <= a && b' <= b && c' <= c
    ensures a' + b' + c' <= a + b + c
  {
  }

  /** The draws `_reset_ball_random` makes: the position, the gate roll and,
      used only when the gate passes, two magnitudes and two directions. */
  datatype BallDraws = BallDraws(
    x: real, y: real, z: real, speedRoll: real,
    linSpeed: real, linDir: Vec3, angSpeed: real, angDir: Vec3)

  predicate BallDrawsInRange(cv: CommonValues, d: BallDraws)
  {
    && -XMax(cv) <= d.x <= XMax(cv)
    && -YMax(cv) <= d.y <= YMax(cv)
    && cv.ballRadius <= d.z <= ZMaxBall(cv)
    && 0.0 <= d.speedRoll < 1.0
    && 0.0 <= d.linSpeed <= cv.ballMaxSpeed && NormSq(d.linDir) == 1.0
    && 0.0 <= d.angSpeed <= cv.ballMaxAngVel && NormSq(d.angDir) == 1.0
  }

  /** The draws `_reset_cars_random` makes for one car. */
  datatype CarDraws = CarDraws(
    x: real, y: real, z: real, pitch: real, yaw: real, roll: real, speedRoll: real,
    linSpeed: real, linDir: Vec3, angSpeed: real, angDir: Vec3, groundRoll: real)

  /** The ranges as the source writes them: height up to the ball's ceiling
      bound, yaw in [-YawMax, RollMax]. */
  predicate CarDrawsInRange(cv: CommonValues, d: CarDraws)
  {
    && -XMax(cv) <= d.x <= XMax(cv)
    && -YMax(cv) <= d.y <= YMax(cv)
    && CarMargin <= d.z <= ZMaxBall(cv)
    && -PitchMax(cv) <= d.pitch <= PitchMax(cv)
    && -YawMax(cv) <= d.yaw <= RollMax(cv)
    && -RollMax(cv) <= d.roll <= RollMax(cv)
    && 0.0 <= d.speedRoll < 1.0
    && 0.0 <= d.linSpeed <= cv.carMaxSpeed && NormSq(d.linDir) == 1.0
    && 0.0 <= d.angSpeed <= cv.carMaxAngVel && NormSq(d.angDir) == 1.0
    && 0.0 <= d.groundRoll < 1.0
  }

  /** The ball after `_reset_ball_random`: placed at the drawn position,
      within the field; given the drawn velocities, within the ball maxima,
      only when the gate roll is below the probability, and otherwise left
      with the velocities it had. */
  function BallAfterReset(ball: Ball, d: BallDraws, randomSpeedProb: real, ghost cv: CommonValues): (b: Ball)
    requires BallDrawsInRange(cv, d)
    ensures b.position == Vec3(d.x, d.y, d.z)
    ensures -XMax(cv) <= b.position.x <= XMax(cv)
    ensures -YMax(cv) <= b.position.y <= YMax(cv)
    ensures cv.ballRadius <= b.position.z <= ZMaxBall(cv)
    ensures d.speedRoll < randomSpeedProb ==>
              && b.linearVelocity == Scale(d.linSpeed, d.linDir)
              && b.angularVelocity == Scale(d.angSpeed, d.angDir)
              && NormSq(b.linearVelocity) <= cv.ballMaxSpeed * cv.ballMaxSpeed
              && NormSq(b.angularVelocity) <= cv.ballMaxAngVel * cv.ballMaxAngVel
    ensures !(d.speedRoll < randomSpeedProb) ==>
              b.linearVelocity == ball.linearVelocity && b.angularVelocity == ball.angularVelocity
  {
    var placed := ball.(position := ball.position.Set(Some(d.x), Some(d.y), Some(d.z)));
    if d.speedRoll < randomSpeedProb then
      var vel := Scale(d.linSpeed, d.linDir);
      var angVel := Scale(d.angSpeed, d.angDir);
      ScaledUnitNormBound(d.linSpeed, d.linDir, cv.ballMaxSpeed);
      ScaledUnitNormBound(d.angSpeed, d.angDir, cv.ballMaxAngVel);
      var moving := placed.(linearVelocity := placed.linearVelocity.Set(Some(vel.x), Some(vel.y), Some(vel.z)));
      moving.(angularVelocity := moving.angularVelocity.Set(Some(angVel.x), Some(angVel.y), Some(angVel.z)))
    else
      placed
  }

  /** One car after its iteration of `_reset_cars_random`. Horizontal position
      and yaw are always the drawn values. When the ground roll is below the
      probability, height, pitch, roll, vertical linear velocity and the x/y
      angular velocity are overwritten for a car resting on the ground, and
      nothing else is; otherwise they keep what the earlier steps wrote.
      Velocities are drawn (within the car maxima, even after the clamp)
      only when the speed roll is below its probability. */
  function CarAfterReset(car: Car, d: CarDraws, onGroundProb: real, randomSpeedProb: real, ghost cv: CommonValues): (c: Car)
    requires CarDrawsInRange(cv, d)
    ensures c.position.x == d.x && -XMax(cv) <= c.position.x <= XMax(cv)
    ensures c.position.y == d.y && -YMax(cv) <= c.position.y <= YMax(cv)
    ensures c.rotation.yaw == d.yaw && -YawMax(cv) <= c.rotation.yaw <= RollMax(cv)
    // the ground clamp
    ensures d.groundRoll < onGroundProb ==>
              && c.position.z == GroundZ
              && c.rotation.pitch == 0.0 && c.rotation.roll == 0.0
              && c.linearVelocity.z == 0.0
              && c.angularVelocity.x == 0.0 && c.angularVelocity.y == 0.0
    ensures !(d.groundRoll < onGroundProb) ==>
              && c.position.z == d.z && CarMargin <= c.position.z <= ZMaxBall(cv)
              && c.rotation.pitch == d.pitch && -PitchMax(cv) <= c.rotation.pitch <= PitchMax(cv)
              && c.rotation.roll == d.roll && -RollMax(cv) <= c.rotation.roll <= RollMax(cv)
    // the velocities
    ensures d.speedRoll < randomSpeedProb ==>
              && c.linearVelocity.x == Scale(d.linSpeed, d.linDir).x
              && c.linearVelocity.y == Scale(d.linSpeed, d.linDir).y
              && c.angularVelocity.z == Scale(d.angSpeed, d.angDir).z
              && NormSq(c.linearVelocity) <= cv.carMaxSpeed * cv.carMaxSpeed
              && NormSq(c.angularVelocity) <= cv.carMaxAngVel * cv.carMaxAngVel
    ensures !(d.speedRoll < randomSpeedProb) ==>
              && c.linearVelocity.x == car.linearVelocity.x
              && c.linearVelocity.y == car.linearVelocity.y
              && c.angularVelocity.z == car.angularVelocity.z
    ensures !(d.groundRoll < onGroundProb) ==>
              if d.speedRoll < randomSpeedProb then
                c.linearVelocity == Scale(d.linSpeed, d.linDir) && c.angularVelocity == Scale(d.angSpeed, d.angDir)
              else
                c.linearVelocity == car.linearVelocity && c.angularVelocity == car.angularVelocity
  {
    var placed := car.(position := car.position.Set(Some(d.x), Some(d.y), Some(d.z)));
    var rotated := placed.(rotation := placed.rotation.Set(Some(d.pitch), Some(d.yaw), Some(d.roll)));
    var moving :=
      if d.speedRoll < randomSpeedProb then
        var vel := Scale(d.linSpeed, d.linDir);
        var angVel := Scale(d.angSpeed, d.angDir);
        ScaledUnitNormBound(d.linSpeed, d.linDir, cv.carMaxSpeed);
        ScaledUnitNormBound(d.angSpeed, d.angDir, cv.carMaxAngVel);
        var withLin := rotated.(linearVelocity := rotated.linearVelocity.Set(Some(vel.x), Some(vel.y), Some(vel.z)));
        withLin.(angularVelocity := withLin.angularVelocity.Set(Some(angVel.x), Some(angVel.y), Some(angVel.z)))
      else
        rotated;
    if d.groundRoll < onGroundProb then
      var grounded := moving.(position := moving.position.Set(None, None, Some(GroundZ)));
      var level := grounded.(linearVelocity := grounded.linearVelocity.Set(None, None, Some(0.0)));
      var flat := level.(rotation := level.rotation.Set(Some(0.0), None, Some(0.0)));
      ZeroingAxesShrinks(moving.linearVelocity, None, None, Some(0.0));
      ZeroingAxesShrinks(moving.angularVelocity, Some(0.0), Some(0.0), None);
      flat.(angularVelocity := flat.angularVelocity.Set(Some(0.0), Some(0.0), None))
    else
      moving
  }

  /** With a ball speed probability of 0 the ball's velocities are never
      written, since the gate roll is never below 0. */
  lemma ZeroSpeedProbKeepsBallVelocity(ball: Ball, d: BallDraws, cv: CommonValues)
    requires BallDrawsInRange(cv, d)
    ensures BallAfterReset(ball, d, 0.0, cv).linearVelocity == ball.linearVelocity
    ensures BallAfterReset(ball, d, 0.0, cv).angularVelocity == ball.angularVelocity
  {
  }

  /** With the default on-ground probability of 1 every car ends on the
      ground, level and with no vertical speed. */
  lemma DefaultOnGroundProbGroundsCar(car: Car, d: CarDraws, randomSpeedProb: real, cv: CommonValues)
    requires CarDrawsInRange(cv, d)
    ensures var c := CarAfterReset(car, d, 1.0, randomSpeedProb, cv);
            && c.position.z == GroundZ
            && c.rotation.pitch == 0.0 && c.rotation.roll == 0.0
            && c.linearVelocity.z == 0.0
            && c.angularVelocity.x == 0.0 && c.angularVelocity.y == 0.0
  {
  }

  /** A car resting on the ground sits below the margin that bounds drawn
      heights, so the drawn height range does not hold for grounded cars. */
  lemma GroundedCarBelowMargin(car: Car, d: CarDraws, onGroundProb: real, randomSpeedProb: real, cv: CommonValues)
    requires CarDrawsInRange(cv, d) && d.groundRoll < onGroundProb
    ensures CarAfterReset(car, d, onGroundProb, randomSpeedProb, cv).position.z < CarMargin
  {
  }

  class RandomState {
    var ballRandSpeedProb: real
    var carsRandSpeedProb: real
    var carsOnGroundProb: real

    /** Stores the three probabilities as given; nothing is validated. */
    constructor (ballRandSpeedProb: real := 0.0, carsRandSpeedProb: real := 0.0, carsOnGroundProb: real := 1.0)
      ensures this.ballRandSpeedProb == ballRandSpeedProb
      ensures this.carsRandSpeedProb == carsRandSpeedProb
      ensures this.carsOnGroundProb == carsOnGroundProb
    {
      this.ballRandSpeedProb := ballRandSpeedProb;
      this.carsRandSpeedProb := carsRandSpeedProb;
      this.carsOnGroundProb := carsOnGroundProb;
    }

    /** Randomizes the ball and then every car. As in the source, the ball is
        gated by the cars' speed probability and the cars by the ball's. */
    method Reset(w: StateWrapper, ballDraws: BallDraws, carDraws: seq<CarDraws>, ghost cv: CommonValues)
      requires cv.Valid()
      requires BallDrawsInRange(cv, ballDraws)
      requires |carDraws| == w.cars.Length
      requires forall i :: 0 <= i < |carDraws| ==> CarDrawsInRange(cv, carDraws[i])
      modifies w, w.cars
      ensures w.ball == BallAfterReset(old(w.ball), ballDraws, carsRandSpeedProb, cv)
      ensures forall i :: 0 <= i < w.cars.Length ==>
                w.cars[i] == CarAfterReset(old(w.cars[i]), carDraws[i], carsOnGroundProb, ballRandSpeedProb, cv)
      ensures unchanged(this)
    {
      ResetBallRandom(w, ballDraws, carsRandSpeedProb, cv);
      ResetCarsRandom(w, carDraws, carsOnGroundProb, ballRandSpeedProb, cv);
    }

    /** Places the ball and, when the gate roll passes, gives it velocities;
        no car is touched. */
    method ResetBallRandom(w: StateWrapper, d: BallDraws, randomSpeedProb: real, ghost cv: CommonValues)
      requires cv.Valid()
      requires BallDrawsInRange(cv, d)
      modifies w
      ensures w.ball == BallAfterReset(old(w.ball), d, randomSpeedProb, cv)
      ensures w.cars[..] == old(w.cars[..])
    {
      w.SetBallPos(Some(d.x), Some(d.y), Some(d.z));
      if d.speedRoll < randomSpeedProb {
        var vel := Scale(d.linSpeed, d.linDir);
        var angVel := Scale(d.angSpeed, d.angDir);
        w.SetBallLinVel(Some(vel.x), Some(vel.y), Some(vel.z));
        w.SetBallAngVel(Some(angVel.x), Some(angVel.y), Some(angVel.z));
      }
    }

    /** Visits every car once, in list order, with its own draws; the ball is
        not touched and the car list is not resized. */
    method ResetCarsRandom(w: StateWrapper, draws: seq<CarDraws>, onGroundProb: real, randomSpeedProb: real, ghost cv: CommonValues)
      requires cv.Valid()
      requires |draws| == w.cars.Length
      requires forall i :: 0 <= i < |draws| ==> CarDrawsInRange(cv, draws[i])
      modifies w.cars
      ensures forall i :: 0 <= i < w.cars.Length ==>
                w.cars[i] == CarAfterReset(old(w.cars[i]), draws[i], onGroundProb, randomSpeedProb, cv)
      ensures w.ball == old(w.ball)
    {
      for i := 0 to w.cars.Length
        invariant forall j :: 0 <= j < i ==>
                    w.cars[j] == CarAfterReset(old(w.cars[j]), draws[j], onGroundProb, randomSpeedProb, cv)
        invariant forall j :: i <= j < w.cars.Length ==> w.cars[j] == old(w.cars[j])
      {
        var d := draws[i];
        w.SetCarPos(i, Some(d.x), Some(d.y), Some(d.z));
        w.SetCarRot(i, Some(d.pitch), Some(d.yaw), Some(d.roll));
        if d.speedRoll < randomSpeedProb {
          var vel := Scale(d.linSpeed, d.linDir);
          var angVel := Scale(d.angSpeed, d.angDir);
          w.SetCarLinVel(i, Some(vel.x), Some(vel.y), Some(vel.z));
          w.SetCarAngVel(i, Some(angVel.x), Some(angVel.y), Some(angVel.z));
        }
        if d.groundRoll < onGroundProb {
          w.SetCarPos(i, None, None, Some(GroundZ));
          w.SetCarLinVel(i, None, None, Some(0.0));
          w.SetCarRot(i, Some(0.0), None, Some(0.0));
          w.SetCarAngVel(i, Some(0.0), Some(0.0), None);
        }
      }
    }
  }
}
