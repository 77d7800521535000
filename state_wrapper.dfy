/** The state-setting handle a state setter writes into: one record for the
    ball and one per car, and setters that take an optional value per axis
    and leave every omitted axis as it was. */
module StateWrapper {

  datatype Option<T> = None | Some(value: T)

  /** The given value if there is one, otherwise the current one. */
  function Pick(given: Option<real>, current: real): (r: real)
    ensures given.Some? ==> r == given.value
    ensures given.None? ==> r == current
  {
    if given.Some? then given.value else current
  }

  /** A position or a velocity, per axis. */
  datatype Vec3 = Vec3(x: real, y: real, z: real) {
    /** The vector with the given axes replaced and the others kept. */
    function Set(x': Option<real>, y': Option<real>, z': Option<real>): Vec3
    {
      Vec3(Pick(x', x), Pick(y', y), Pick(z', z))
    }
  }

  /** A car's rotation as Euler angles. */
  datatype Euler = Euler(pitch: real, yaw: real, roll: real) {
    /** The rotation with the given angles replaced and the others kept. */
    function Set(pitch': Option<real>, yaw': Option<real>, roll': Option<real>): Euler
    {
      Euler(Pick(pitch', pitch), Pick(yaw', yaw), Pick(roll', roll))
    }
  }

  datatype Ball = Ball(position: Vec3, linearVelocity: Vec3, angularVelocity: Vec3)

  datatype Car = Car(position: Vec3, rotation: Euler, linearVelocity: Vec3, angularVelocity: Vec3)

  /** A later partial write overrides the axes it names and keeps what an
      earlier write put on the others. */
  lemma LaterSetWins(v: Vec3, x1: Option<real>, y1: Option<real>, z1: Option<real>,
                     x2: Option<real>, y2: Option<real>, z2: Option<real>)
    ensures v.Set(x1, y1, z1).Set(x2, y2, z2)
            == v.Set(if x2.Some? then x2 else x1, if y2.Some? then y2 else y1, if z2.Some? then z2 else z1)
  {
  }

  class StateWrapper {
    var ball: Ball
    /** The car list; its length and identity never change. */
    const cars: array<Car>

    constructor (ball: Ball, cars: seq<Car>)
      ensures this.ball == ball && this.cars[..] == cars && fresh(this.cars)
    {
      this.ball := ball;
      this.cars := new Car[|cars|](i requires 0 <= i < |cars| => cars[i]);
    }

    method SetBallPos(x: Option<real>, y: Option<real>, z: Option<real>)
      modifies this
      ensures ball == old(ball).(position := old(ball).position.Set(x, y, z))
      ensures cars[..] == old(cars[..])
    {
      ball := ball.(position := ball.position.Set(x, y, z));
    }

    method SetBallLinVel(x: Option<real>, y: Option<real>, z: Option<real>)
      modifies this
      ensures ball == old(ball).(linearVelocity := old(ball).linearVelocity.Set(x, y, z))
      ensures cars[..] == old(cars[..])
    {
      ball := ball.(linearVelocity := ball.linearVelocity.Set(x, y, z));
    }

    method SetBallAngVel(x: Option<real>, y: Option<real>, z: Option<real>)
      modifies this
      ensures ball == old(ball).(angularVelocity := old(ball).angularVelocity.Set(x, y, z))
      ensures cars[..] == old(cars[..])
    {
      ball := ball.(angularVelocity := ball.angularVelocity.Set(x, y, z));
    }

    method SetCarPos(i: nat, x: Option<real>, y: Option<real>, z: Option<real>)
      requires i < cars.Length
      modifies cars
      ensures cars[..] == old(cars[..])[i := old(cars[i]).(position := old(cars[i]).position.Set(x, y, z))]
      ensures ball == old(ball)
    {
      cars[i] := cars[i].(position := cars[i].position.Set(x, y, z));
    }

    method SetCarRot(i: nat, pitch: Option<real>, yaw: Option<real>, roll: Option<real>)
      requires i < cars.Length
      modifies cars
      ensures cars[..] == old(cars[..])[i := old(cars[i]).(rotation := old(cars[i]).rotation.Set(pitch, yaw, roll))]
      ensures ball == old(ball)
    {
      cars[i] := cars[i].(rotation := cars[i].rotation.Set(pitch, yaw, roll));
    }

    method SetCarLinVel(i: nat, x: Option<real>, y: Option<real>, z: Option<real>)
      requires i < cars.Length
      modifies cars
      ensures cars[..] == old(cars[..])[i := old(cars[i]).(linearVelocity := old(cars[i]).linearVelocity.Set(x, y, z))]
      ensures ball == old(ball)
    {
      cars[i] := cars[i].(linearVelocity := cars[i].linearVelocity.Set(x, y, z));
    }

    method SetCarAngVel(i: nat, x: Option<real>, y: Option<real>, z: Option<real>)
      requires i < cars.Length
      modifies cars
      ensures cars[..] == old(cars[..])[i := old(cars[i]).(angularVelocity := old(cars[i]).angularVelocity.Set(x, y, z))]
      ensures ball == old(ball)
    {
      cars[i] := cars[i].(angularVelocity := cars[i].angularVelocity.Set(x, y, z));
    }
  }
}
