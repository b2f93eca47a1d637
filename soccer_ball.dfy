// The ball: a moving entity slowed by a constant friction, kicked by
// players, and able to predict where it will be and how long it needs to
// cover a distance.
module Ball {
  import opened Geometry
  import opened Params

  class SoccerBall {
    var pos: Vector2D
    var oldPos: Vector2D
    var velocity: Vector2D
    var heading: Vector2D
    const bRadius: real
    const mass: real
    const maxSpeed: real
    const scale: Vector2D
    const maxTurnRate: real
    const maxForce: real

    /** A ball at rest at `pos`, heading down the y axis, with no speed limit set (-1). */
    constructor (pos: Vector2D, ballSize: real, mass: real)
      ensures this.pos == pos && bRadius == ballSize && this.mass == mass
      ensures velocity == Zero && heading == Vector2D(0.0, 1.0) && maxSpeed == -1.0
      ensures scale == Vector2D(1.0, 1.0) && maxTurnRate == 0.0 && maxForce == 0.0
      ensures oldPos == Zero
    {
      this.pos := pos;
      oldPos := Zero;
      bRadius := ballSize;
      velocity := Zero;
      maxSpeed := -1.0;
      heading := Vector2D(0.0, 1.0);
      this.mass := mass;
      scale := Vector2D(1.0, 1.0);
      maxTurnRate := 0.0;
      maxForce := 0.0;
    }

    /** The ball ignores every message. */
    function HandleMessage<M>(msg: M): (handled: bool)
      ensures !handled
    {
      false
    }

    function Speed(g: Geometry): real reads this { g.Length(velocity) }

    function OldPos(): Vector2D reads this { oldPos }

    /**
     * Kicks the ball: the new velocity is the normalised direction times the
     * force, divided by the mass, whatever the ball was doing before.
     */
    method Kick(direction: Vector2D, force: real, g: Geometry)
      requires g.Sound() && mass != 0.0
      modifies this`velocity
      ensures velocity == g.Normalize(direction).Scale(force).Div(mass)
      ensures direction != Zero ==> g.Length(velocity) == Abs(force / mass)
    {
      velocity := g.Normalize(direction).Scale(force).Div(mass);
      if direction != Zero {
        LengthZero(g, direction);
        LengthNonNegative(g, direction);
        NormalizeUnit(g, direction);
        DivIsScale(g.Normalize(direction).Scale(force), mass);
        assert velocity == g.Normalize(direction).Scale(force / mass);
        LengthScale(g, g.Normalize(direction), force / mass);
      }
    }

    /**
     * One tick of ball physics.  The old position is recorded first, the wall
     * collision step (`collide`, a function of position and velocity) may
     * change the velocity, and then friction is applied only while the speed
     * exceeds the friction magnitude; only then do position and heading move.
     */
    method Update(prm: Params, g: Geometry, collide: (Vector2D, Vector2D) -> Vector2D)
      modifies this`oldPos, this`velocity, this`pos, this`heading
      ensures oldPos == old(pos)
      ensures var v := collide(old(pos), old(velocity));
        if v.LengthSq() > prm.friction * prm.friction then
          velocity == FrictionStep(v, prm.friction, g) &&
          pos == old(pos).Plus(velocity) &&
          heading == g.Normalize(velocity)
        else
          velocity == v && pos == old(pos) && heading == old(heading)
    {
      oldPos := pos;
      velocity := collide(pos, velocity);
      if velocity.LengthSq() > prm.friction * prm.friction {
        velocity := velocity.Plus(g.Normalize(velocity).Scale(prm.friction));
        pos := pos.Plus(velocity);
        heading := g.Normalize(velocity);
      }
    }

    /**
     * How long a ball kicked with `force` needs from `a` to `b`, by
     * v^2 = u^2 + 2as and t = (v - u)/a with the friction as deceleration;
     * -1 when the ball stops before reaching `b`.
     */
    function TimeToCoverDistance(a: Vector2D, b: Vector2D, force: real, prm: Params, g: Geometry): (t: real)
      requires mass != 0.0 && prm.friction != 0.0
      ensures Reach(a, b, force, prm, g) <= 0.0 ==> t == -1.0
    {
      var speed := force / mass;
      var term := Reach(a, b, force, prm, g);
      if term <= 0.0 then -1.0
      else (g.sqrt(term) - speed) / prm.friction
    }

    /** The squared speed the ball would have on arrival: u^2 + 2*s*friction. */
    function Reach(a: Vector2D, b: Vector2D, force: real, prm: Params, g: Geometry): real
      requires mass != 0.0
    {
      var speed := force / mass;
      speed * speed + 2.0 * g.Distance(a, b) * prm.friction
    }

    /** Where the ball will be after `time`, by s = ut + at^2/2 along the velocity. */
    function FuturePosition(time: real, prm: Params, g: Geometry): Vector2D
      reads this
    {
      var ut := velocity.Scale(time);
      var halfATSquared := 0.5 * prm.friction * time * time;
      pos.Plus(ut).Plus(g.Normalize(velocity).Scale(halfATSquared))
    }

    /** Stops the ball dead. */
    method Trap()
      modifies this`velocity
      ensures velocity == Zero
    {
      velocity := Zero;
    }

    /** Puts the ball at rest at `p`, which also becomes its old position. */
    method PlaceAtPosition(p: Vector2D)
      modifies this`pos, this`oldPos, this`velocity
      ensures pos == p && oldPos == p && velocity == Zero
      ensures OldPos() == p
    {
      pos := p;
      oldPos := pos;
      velocity := Zero;
    }
  }

  /** The velocity after one tick of friction. */
  function FrictionStep(v: Vector2D, friction: real, g: Geometry): Vector2D
  {
    v.Plus(g.Normalize(v).Scale(friction))
  }

  /**
   * While the ball is faster than the friction magnitude, one tick of a
   * (negative) friction lowers its speed by exactly that magnitude and keeps
   * its direction.
   */
  lemma FrictionSlowsBall(v: Vector2D, friction: real, g: Geometry)
    requires g.Sound() && friction < 0.0 && v.LengthSq() > friction * friction
    ensures g.Length(FrictionStep(v, friction, g)) == g.Length(v) + friction
    ensures g.Normalize(FrictionStep(v, friction, g)) == g.Normalize(v)
  {
    var l := g.Length(v);
    LengthNonNegative(g, v);
    if l <= -friction {
      SquareMonotoneLe(l, -friction);
    }
    assert l > -friction > 0.0;
    NormalizeUnit(g, v);
    var n := g.Normalize(v);
    assert v == n.Scale(l);
    var w := FrictionStep(v, friction, g);
    ScaleSum(n, l, friction);
    assert w == n.Scale(l + friction);
    LengthScale(g, n, l + friction);
    assert g.Length(w) == l + friction;
    DivIsScale(w, l + friction);
    assert w.Div(l + friction) == n.Scale(l + friction).Scale(1.0 / (l + friction));
  }

  lemma SquareMonotoneLe(a: real, b: real)
    requires 0.0 <= a <= b
    ensures a * a <= b * b
  {
    if a < b { SquareMonotone(a, b); }
  }

  /** A time of zero predicts the present position. */
  lemma FuturePositionNow(ball: SoccerBall, prm: Params, g: Geometry)
    ensures ball.FuturePosition(0.0, prm, g) == ball.pos
  {
  }

  /**
   * With a non-negative kicking force and a decelerating friction, the time
   * is negative exactly when the ball cannot reach the point, so callers
   * that test `time < 0` test reachability.
   */
  lemma TimeNegativeIffUnreachable(ball: SoccerBall, a: Vector2D, b: Vector2D, force: real, prm: Params, g: Geometry)
    requires g.Sound() && ball.mass > 0.0 && 0.0 <= force && prm.friction < 0.0
    ensures ball.TimeToCoverDistance(a, b, force, prm, g) < 0.0 <==> ball.Reach(a, b, force, prm, g) <= 0.0
  {
    var speed := force / ball.mass;
    var term := ball.Reach(a, b, force, prm, g);
    if term > 0.0 {
      var d := g.Distance(a, b);
      LengthNonNegative(g, b.Minus(a));
      assert 0.0 <= speed;
      assert 2.0 * d * prm.friction <= 0.0;
      assert term <= speed * speed;
      var v := g.sqrt(term);
      assert 0.0 <= v && v * v == term;
      if v > speed {
        SquareMonotone(speed, v);
      }
      assert v - speed <= 0.0;
      assert (v - speed) / prm.friction >= 0.0;
    }
  }

  /**
   * The time returned for a reachable point solves the equation of motion:
   * travelling for that time at the kick speed under friction covers exactly
   * the distance.
   */
  lemma TimeSolvesMotion(ball: SoccerBall, a: Vector2D, b: Vector2D, force: real, prm: Params, g: Geometry)
    requires g.Sound() && ball.mass != 0.0 && prm.friction != 0.0
    requires ball.Reach(a, b, force, prm, g) > 0.0
    ensures var t := ball.TimeToCoverDistance(a, b, force, prm, g);
      (force / ball.mass) * t + 0.5 * prm.friction * t * t == g.Distance(a, b)
  {
    var u := force / ball.mass;
    var term := ball.Reach(a, b, force, prm, g);
    var v := g.sqrt(term);
    assert ball.TimeToCoverDistance(a, b, force, prm, g) == (v - u) / prm.friction;
    assert v * v == u * u + 2.0 * g.Distance(a, b) * prm.friction;
    QuadraticRoot(u, prm.friction, g.Distance(a, b), v);
  }

  /** `(v - u) / f` solves `u t + f t^2 / 2 = d` when `v^2 = u^2 + 2 d f`. */
  lemma QuadraticRoot(u: real, f: real, d: real, v: real)
    requires f != 0.0 && v * v == u * u + 2.0 * d * f
    ensures var t := (v - u) / f; u * t + 0.5 * f * t * t == d
  {
    var t := (v - u) / f;
    assert t * f == v - u;
    calc {
      u * t + 0.5 * f * t * t;
      == t * (u + 0.5 * (t * f));
      == t * (u + 0.5 * (v - u));
      == 0.5 * t * (v + u);
      == 0.5 * ((v - u) / f) * (v + u);
      == 0.5 * (v * v - u * u) / f;
      == 0.5 * (2.0 * d * f) / f;
      == d;
    }
  }

  /**
   * Prediction and timing agree: a ball at `a` kicked towards `b` with
   * `force` is predicted to be exactly at `b` after the time the ball needs
   * to cover the distance.
   */
  lemma KickedBallArrives(ball: SoccerBall, a: Vector2D, b: Vector2D, force: real, prm: Params, g: Geometry)
    requires g.Sound() && ball.mass > 0.0 && 0.0 < force && prm.friction != 0.0
    requires a != b && ball.pos == a
    requires ball.velocity == g.Normalize(b.Minus(a)).Scale(force / ball.mass)
    requires ball.Reach(a, b, force, prm, g) > 0.0
    ensures ball.FuturePosition(ball.TimeToCoverDistance(a, b, force, prm, g), prm, g) == b
  {
    var u := force / ball.mass;
    var t := ball.TimeToCoverDistance(a, b, force, prm, g);
    var d := g.Distance(a, b);
    var n := g.Normalize(b.Minus(a));
    LengthZero(g, b.Minus(a));
    LengthNonNegative(g, b.Minus(a));
    NormalizeUnit(g, b.Minus(a));
    assert n.Scale(d) == b.Minus(a);
    NormalizeScaledUnit(g, n, u);
    assert g.Normalize(ball.velocity) == n;
    var h := 0.5 * prm.friction * t * t;
    assert ball.velocity == n.Scale(u);
    assert ball.FuturePosition(t, prm, g) == a.Plus(ball.velocity.Scale(t)).Plus(g.Normalize(ball.velocity).Scale(h));
    TimeSolvesMotion(ball, a, b, force, prm, g);
    MovesAlong(a, n, u, t, h, d);
    assert a.Plus(b.Minus(a)) == b;
  }

  /** Normalising a positive multiple of a unit vector gives the unit vector back. */
  lemma NormalizeScaledUnit(g: Geometry, n: Vector2D, u: real)
    requires g.Sound() && g.Length(n) == 1.0 && 0.0 < u
    ensures g.Normalize(n.Scale(u)) == n
  {
    LengthScale(g, n, u);
    DivIsScale(n.Scale(u), u);
  }

  lemma MovesAlong(a: Vector2D, n: Vector2D, u: real, t: real, h: real, d: real)
    requires u * t + h == d
    ensures a.Plus(n.Scale(u).Scale(t)).Plus(n.Scale(h)) == a.Plus(n.Scale(d))
  {
    assert n.x * u * t + n.x * h == n.x * d;
    assert n.y * u * t + n.y * h == n.y * d;
  }
}
