// A player: the moving body every field player and goalkeeper shares, its
// queries about the ball, its targets and its region, and the way one tick
// of steering moves it.  The state machine that drives a player is in the
// States module; the queries that need the player's team are in the Team
// module.
module Player {
  import opened Optional
  import opened Geometry
  import opened Params
  import opened Ball
  import opened Steering
  import opened Entity

  datatype Role = GoalKeeper | Attacker | Defender

  /**
   * The states of the two player state machines: the field player's states
   * first, then the goalkeeper's.  Each state is a single stateless
   * instance in the simulation, so a tag stands for it.
   */
  datatype State =
    | GlobalPlayerState | ChaseBall | SupportAttacker | ReturnToHomeRegion
    | Wait | KickBall | ReceiveBall | Dribble
    | GoalKeeperState | TendGoal | ReturnHome | InterceptBall | PutBallBackInPlay
  {
    /** The two states used only as the global state of a machine. */
    predicate IsGlobal() { this == GlobalPlayerState || this == GoalKeeperState }

    /** The goalkeeper's states, its global state included. */
    predicate OfKeeper()
    {
      this == GoalKeeperState || this == TendGoal || this == ReturnHome ||
      this == InterceptBall || this == PutBallBackInPlay
    }
  }

  /** The outline of a player's body, in the player's own space. */
  const PlayerShape: seq<Vector2D> :=
    [Vector2D(-3.0, 8.0), Vector2D(3.0, 10.0), Vector2D(3.0, -10.0), Vector2D(-3.0, -8.0)]

  /** `r` raised, vertex by vertex, to the larger of each vertex's coordinates taken absolutely. */
  function Extent(r: real, vs: seq<Vector2D>): real
    decreases |vs|
  {
    if vs == [] then r
    else Extent(Max(Max(r, Abs(vs[0].x)), Abs(vs[0].y)), vs[1..])
  }

  class PlayerBase {
    const id: int
    const role: Role
    const defaultRegion: int
    const steering: SteeringBehaviors
    const ball: SoccerBall
    const mass: real
    const maxForce: real
    const maxTurnRate: real
    const scale: Vector2D
    var homeRegion: int
    var distSqToBall: real
    var pos: Vector2D
    var velocity: Vector2D
    var heading: Vector2D
    var side: Vector2D
    var maxSpeed: real
    var bRadius: real
    // the state machine of the player: the current, previous and global
    // states, none until a start state is set
    var current: Option<State>
    var previous: Option<State>
    var global: Option<State>

    /**
     * A player standing at the centre of its home region, which is also its
     * default region, with the ball infinitely far away.  The bounding
     * radius starts at ten times the scale and is raised to the largest
     * coordinate of the body's outline; the steering starts aimed at the
     * home region's centre.
     */
    constructor (ids: IdSource, field: Field, homeRegion: int, heading: Vector2D, velocity: Vector2D,
                 mass: real, maxForce: real, maxSpeed: real, maxTurnRate: real, scale: real,
                 role: Role, ball: SoccerBall, prm: Params)
      requires ids.Valid()
      modifies ids
      ensures ids.Valid() && ids.next == old(ids.next) + 1
      ensures id == old(ids.next) && id !in old(ids.issued) && ids.issued == old(ids.issued) + {id}
      ensures pos == field.regionCenter(homeRegion)
      ensures this.homeRegion == homeRegion && defaultRegion == homeRegion
      ensures distSqToBall == MaxFloat && this.role == role && this.ball == ball
      ensures this.heading == heading && side == heading.Perp() && this.velocity == velocity
      ensures this.mass == mass && this.maxForce == maxForce && this.maxSpeed == maxSpeed
      ensures this.maxTurnRate == maxTurnRate && this.scale == Vector2D(scale, scale)
      ensures bRadius == Extent(scale * 10.0, PlayerShape)
      ensures bRadius == Max(scale * 10.0, 10.0)
      ensures fresh(steering) && steering.ball == ball && steering.flags == NoBehavior
      ensures steering.target == field.regionCenter(homeRegion) && !steering.tagged
      ensures current == None && previous == None && global == None
    {
      var newId := ids.NextValidID();
      id := newId;
      pos := field.regionCenter(homeRegion);
      bRadius := scale * 10.0;
      this.velocity := velocity;
      this.maxSpeed := maxSpeed;
      this.heading := heading;
      side := heading.Perp();
      this.mass := mass;
      this.scale := Vector2D(scale, scale);
      this.maxTurnRate := maxTurnRate;
      this.maxForce := maxForce;
      distSqToBall := MaxFloat;
      this.homeRegion := homeRegion;
      defaultRegion := homeRegion;
      this.role := role;
      this.ball := ball;
      current := None;
      previous := None;
      global := None;
      var s := new SteeringBehaviors(ball, prm);
      steering := s;
      new;
      var r := scale * 10.0;
      var vtx := 0;
      while vtx < |PlayerShape|
        invariant 0 <= vtx <= |PlayerShape|
        invariant Extent(r, PlayerShape[vtx..]) == Extent(scale * 10.0, PlayerShape)
      {
        assert PlayerShape[vtx..][1..] == PlayerShape[vtx + 1..];
        var v := PlayerShape[vtx];
        if Abs(v.x) > r { r := Abs(v.x); }
        if Abs(v.y) > r { r := Abs(v.y); }
        vtx := vtx + 1;
      }
      bRadius := r;
      PlayerRadius(scale * 10.0);
      steering.SetTarget(field.regionCenter(homeRegion));
    }

    /** What the steering reads of this player. */
    function AsAgent(): Agent
      reads this
    {
      Steering.Agent(pos, velocity, heading, side, maxSpeed, maxForce, maxTurnRate)
    }

    function DistSqToBall(): real reads this { distSqToBall }

    method SetDistSqToBall(val: real)
      modifies this`distSqToBall
      ensures DistSqToBall() == val
    {
      distSqToBall := val;
    }

    method SetVelocity(v: Vector2D)
      modifies this`velocity
      ensures velocity == v
    {
      velocity := v;
    }

    method SetMaxSpeed(speed: real)
      modifies this`maxSpeed
      ensures maxSpeed == speed
    {
      maxSpeed := speed;
    }

    /** Sends the player back to the region it started the match in. */
    method SetDefaultHomeRegion()
      modifies this`homeRegion
      ensures homeRegion == defaultRegion
    {
      homeRegion := defaultRegion;
    }

    method SetHomeRegion(newRegion: int)
      modifies this`homeRegion
      ensures homeRegion == newRegion
    {
      homeRegion := newRegion;
    }

    /** Whether `p` lies strictly in front of the player, measured along its heading. */
    predicate PositionInFrontOfPlayer(p: Vector2D)
      reads this
    {
      p.Minus(pos).Dot(heading) > 0.0
    }

    /** Whether an opponent at `p` is in front of the player and strictly inside its comfort zone. */
    predicate Threatens(p: Vector2D, prm: Params)
      reads this
    {
      PositionInFrontOfPlayer(p) && DistanceSq(pos, p) < prm.playerComfortZoneSq
    }

    /**
     * Scans the opponents and reports whether any of them threatens the
     * player; positions are read, nothing is changed.
     */
    method IsThreatened(opponents: seq<PlayerBase>, prm: Params) returns (threatened: bool)
      ensures threatened <==> exists i :: 0 <= i < |opponents| && Threatens(opponents[i].pos, prm)
    {
      var i := 0;
      while i < |opponents|
        invariant 0 <= i <= |opponents|
        invariant forall j :: 0 <= j < i ==> !Threatens(opponents[j].pos, prm)
      {
        if PositionInFrontOfPlayer(opponents[i].pos) && DistanceSq(pos, opponents[i].pos) < prm.playerComfortZoneSq {
          return true;
        }
        i := i + 1;
      }
      return false;
    }

    /** Turns the heading towards the ball, by at most the turn rate; the side follows. */
    method TrackBall(g: Geometry)
      modifies this`heading, this`side
      ensures heading == g.faceTowards(old(heading), pos, ball.pos, maxTurnRate)
      ensures side == heading.Perp()
    {
      heading := g.faceTowards(heading, pos, ball.pos, maxTurnRate);
      side := heading.Perp();
    }

    /** Points the heading straight at the steering target; the side follows. */
    method TrackTarget(g: Geometry)
      modifies this`heading, this`side
      ensures heading == g.Normalize(steering.target.Minus(pos))
      ensures side == heading.Perp()
      ensures g.Sound() && steering.target != pos ==> g.Length(heading) == 1.0
    {
      heading := g.Normalize(steering.target.Minus(pos));
      side := heading.Perp();
      if g.Sound() && steering.target != pos {
        LengthZero(g, steering.target.Minus(pos));
        LengthNonNegative(g, steering.target.Minus(pos));
        NormalizeUnit(g, steering.target.Minus(pos));
      }
    }

    predicate BallWithinKeeperRange(prm: Params)
      reads this, ball
    {
      DistanceSq(pos, ball.pos) < prm.keeperInBallRangeSq
    }

    predicate BallWithinReceivingRange(prm: Params)
      reads this, ball
    {
      DistanceSq(pos, ball.pos) < prm.ballWithinReceivingRangeSq
    }

    predicate BallWithinKickingRange(prm: Params)
      reads this, ball
    {
      DistanceSq(pos, ball.pos) < prm.playerKickingDistanceSq
    }

    /** Whether the player stands strictly within target range of its steering target. */
    predicate AtTarget(prm: Params)
      reads this, steering
    {
      DistanceSq(pos, steering.target) < prm.playerInTargetRangeSq
    }

    /**
     * Whether the player is inside its home region: the whole region for
     * the goalkeeper, its central half for everyone else.
     */
    predicate InHomeRegion(field: Field)
      reads this
    {
      field.insideRegion(homeRegion, pos, if role == GoalKeeper then RegionMode.Normal else HalfSize)
    }

    /** Distance along the length of the pitch to a goal whose centre is `goalCenter`. */
    function DistToGoal(goalCenter: Vector2D): real
      reads this
    {
      Abs(pos.x - goalCenter.x)
    }

    /**
     * One tick of the player's motion under the steering force it holds.
     * With no steering force the velocity is braked to 0.8 of itself.  The
     * turn is the force across the old heading, kept within the turn limit,
     * and rotates the heading; the velocity is then laid along the new
     * heading, keeping its speed, and accelerated by the force along the new
     * heading over the mass, then cut down to the speed limit; the position
     * moves by the velocity.
     */
    method Move(prm: Params, g: Geometry)
      requires mass != 0.0
      modifies this`velocity, this`heading, this`side, this`pos
      ensures var braked := if steering.Force().IsZero() then old(velocity).Scale(0.8) else old(velocity);
        var turn := Clamp(steering.SideComponent(old(AsAgent())), -prm.playerMaxTurnRate, prm.playerMaxTurnRate);
        heading == g.rotate(old(heading), turn) &&
        velocity == g.Truncate(heading.Scale(g.Length(braked)).Plus(heading.Scale(heading.Dot(steering.Force())).Div(mass)), maxSpeed)
      ensures side == heading.Perp() && pos == old(pos).Plus(velocity)
      ensures g.Sound() ==> heading.LengthSq() == old(heading).LengthSq()
      ensures g.Sound() ==> velocity.Cross(heading) == 0.0
      ensures g.Sound() && 0.0 <= maxSpeed ==> g.Length(velocity) <= maxSpeed
    {
      var v := velocity;
      if steering.Force().IsZero() {
        v := v.Scale(0.8);
      }
      var turningForce := steering.SideComponent(AsAgent());
      turningForce := Clamp(turningForce, -prm.playerMaxTurnRate, prm.playerMaxTurnRate);
      var h := g.rotate(heading, turningForce);
      var forward := steering.ForwardComponent(AsAgent().(heading := h));
      var accel := h.Scale(forward).Div(mass);
      var unbounded := h.Scale(g.Length(v)).Plus(accel);
      var nv := g.Truncate(unbounded, maxSpeed);
      if g.Sound() {
        AlongHeading(h, g.Length(v), forward, mass);
        TruncateParallel(g, unbounded, maxSpeed, h);
        if 0.0 <= maxSpeed {
          TruncateBound(g, unbounded, maxSpeed);
        }
      }
      heading := h;
      velocity := nv;
      side := h.Perp();
      pos := pos.Plus(nv);
    }
  }

  /** The bounding radius of a player scaled to `r`: the larger of `r` and ten. */
  lemma PlayerRadius(r: real)
    ensures Extent(r, PlayerShape) == Max(r, 10.0)
  {
    var s := PlayerShape;
    assert s[1..][1..][1..][1..] == [];
  }

  /** The extent is at least the start value and every coordinate of every vertex. */
  lemma {:induction false} ExtentBounds(r: real, vs: seq<Vector2D>)
    decreases |vs|
    ensures r <= Extent(r, vs)
    ensures forall i :: 0 <= i < |vs| ==> Abs(vs[i].x) <= Extent(r, vs) && Abs(vs[i].y) <= Extent(r, vs)
  {
    if vs != [] {
      var r' := Max(Max(r, Abs(vs[0].x)), Abs(vs[0].y));
      ExtentBounds(r', vs[1..]);
      forall i | 1 <= i < |vs|
        ensures Abs(vs[i].x) <= Extent(r, vs) && Abs(vs[i].y) <= Extent(r, vs)
      {
        assert vs[i] == vs[1..][i - 1];
      }
    }
  }

  /** The extent is the start value or one of the coordinates: the bound is attained. */
  lemma {:induction false} ExtentAttained(r: real, vs: seq<Vector2D>)
    decreases |vs|
    ensures Extent(r, vs) == r ||
      exists i :: 0 <= i < |vs| && (Extent(r, vs) == Abs(vs[i].x) || Extent(r, vs) == Abs(vs[i].y))
  {
    if vs != [] {
      var r' := Max(Max(r, Abs(vs[0].x)), Abs(vs[0].y));
      ExtentAttained(r', vs[1..]);
      if Extent(r, vs) != r' {
        var i :| 0 <= i < |vs[1..]| && (Extent(r', vs[1..]) == Abs(vs[1..][i].x) || Extent(r', vs[1..]) == Abs(vs[1..][i].y));
        assert vs[1..][i] == vs[i + 1];
      }
    }
  }

  /** A vector scaled along `h` plus a second multiple of `h` is one multiple of `h`. */
  lemma AlongHeading(h: Vector2D, a: real, b: real, m: real)
    requires m != 0.0
    ensures h.Scale(a).Plus(h.Scale(b).Div(m)).Cross(h) == 0.0
  {
    assert h.x * b / m == h.x * (b / m);
    assert h.y * b / m == h.y * (b / m);
    assert h.Scale(a).Plus(h.Scale(b).Div(m)) == h.Scale(a + b / m);
  }

  /** Ordering by distance to the opponents' goal, nearest first. */
  predicate SortByDistanceToOpponentsGoal(p1: PlayerBase, p2: PlayerBase, goalCenter: Vector2D)
    reads p1, p2
  {
    p1.DistToGoal(goalCenter) < p2.DistToGoal(goalCenter)
  }

  /** Ordering by distance to the opponents' goal, farthest first. */
  predicate SortByReverseDistanceToOpponentsGoal(p1: PlayerBase, p2: PlayerBase, goalCenter: Vector2D)
    reads p1, p2
  {
    p1.DistToGoal(goalCenter) > p2.DistToGoal(goalCenter)
  }

  /**
   * Both orderings are strict weak orderings, as the sort they are handed to
   * requires: irreflexive and transitive, with the reverse ordering the
   * converse of the other.
   */
  lemma SortOrdersStrictly(p1: PlayerBase, p2: PlayerBase, p3: PlayerBase, goalCenter: Vector2D)
    ensures !SortByDistanceToOpponentsGoal(p1, p1, goalCenter)
    ensures !SortByReverseDistanceToOpponentsGoal(p1, p1, goalCenter)
    ensures SortByDistanceToOpponentsGoal(p1, p2, goalCenter) && SortByDistanceToOpponentsGoal(p2, p3, goalCenter)
      ==> SortByDistanceToOpponentsGoal(p1, p3, goalCenter)
    ensures SortByReverseDistanceToOpponentsGoal(p1, p2, goalCenter) <==> SortByDistanceToOpponentsGoal(p2, p1, goalCenter)
    ensures !SortByDistanceToOpponentsGoal(p1, p2, goalCenter) && !SortByDistanceToOpponentsGoal(p2, p3, goalCenter)
      ==> !SortByDistanceToOpponentsGoal(p1, p3, goalCenter)
  {
  }
}
