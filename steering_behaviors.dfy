// The steering of one player: a bit field of behaviour switches, the target
// and interpose distance the behaviours aim at, a neighbour tag, and the
// force the switched-on behaviours add up to within the player's force
// budget.
module Steering {
  import opened Geometry
  import opened Params
  import opened Ball

  /** The behaviour switches, one bit each, as in the source's `int` bit field. */
  const NoBehavior: bv32 := 0x0000
  const SeekBit: bv32 := 0x0001
  const ArriveBit: bv32 := 0x0002
  const SeparationBit: bv32 := 0x0004
  const PursuitBit: bv32 := 0x0008
  const InterposeBit: bv32 := 0x0010

  predicate IsBehavior(bt: bv32)
  {
    bt == SeekBit || bt == ArriveBit || bt == SeparationBit || bt == PursuitBit || bt == InterposeBit
  }

  /** Every bit of `bt` is set in `flags`. */
  predicate On(flags: bv32, bt: bv32) { flags & bt == bt }

  /** The flags after switching `bt` off: its bit is flipped, but only when it is set. */
  function Off(flags: bv32, bt: bv32): bv32
  {
    if On(flags, bt) then flags ^ bt else flags
  }

  /** The five behaviours occupy five different single bits. */
  lemma BehaviorBitsDistinct(a: bv32, b: bv32)
    requires IsBehavior(a) && IsBehavior(b) && a != b
    ensures a & b == 0 && a != 0
    ensures On(a, a) && !On(b, a)
  {
  }

  /**
   * Switching a behaviour off clears exactly its own bit: the behaviour is
   * off afterwards, every other behaviour keeps its setting, every other bit
   * of the field is left as it was, and switching it off again changes
   * nothing.
   */
  lemma OffClearsOnlyItsBit(flags: bv32, bt: bv32, other: bv32)
    requires IsBehavior(bt) && IsBehavior(other) && other != bt
    ensures !On(Off(flags, bt), bt)
    ensures On(Off(flags, bt), other) == On(flags, other)
    ensures Off(Off(flags, bt), bt) == Off(flags, bt)
    ensures Off(flags, bt) & bt == 0 && Off(flags, bt) | bt == flags | bt
  {
    OffClears(flags, bt);
    OffClears(Off(flags, bt), bt);
    OffKeepsOthers(flags, bt, other);
    OffKeepsBits(flags, bt);
  }

  lemma OffClears(flags: bv32, bt: bv32)
    requires IsBehavior(bt)
    ensures !On(Off(flags, bt), bt) && (!On(flags, bt) ==> Off(flags, bt) == flags)
  {
  }

  lemma OffKeepsOthers(flags: bv32, bt: bv32, other: bv32)
    requires IsBehavior(bt) && IsBehavior(other) && other != bt
    ensures On(Off(flags, bt), other) == On(flags, other)
  {
  }

  lemma OffKeepsBits(flags: bv32, bt: bv32)
    requires IsBehavior(bt)
    ensures Off(flags, bt) & bt == 0 && Off(flags, bt) | bt == flags | bt
  {
  }

  /** How hard Arrive brakes; the enumerators carry the source's integer values. */
  datatype Deceleration = Slow | Normal | Fast
  {
    function Value(): real
    {
      match this
      case Slow => 3.0
      case Normal => 2.0
      case Fast => 1.0
    }
  }

  const DecelerationTweaker: real := 0.3

  /** What the steering reads of the player it belongs to. */
  datatype Agent = Agent(
    pos: Vector2D,
    velocity: Vector2D,
    heading: Vector2D,
    side: Vector2D,
    maxSpeed: real,
    maxForce: real,
    maxTurnRate: real)

  /** The force that turns the velocity into full speed straight at `target`. */
  function Seek(me: Agent, target: Vector2D, g: Geometry): Vector2D
  {
    g.Normalize(target.Minus(me.pos)).Scale(me.maxSpeed).Minus(me.velocity)
  }

  /**
   * Seek asks for a velocity of exactly the maximum speed, pointing at the
   * target; seeking one's own position just cancels the velocity.
   */
  lemma SeekDesiredVelocity(me: Agent, target: Vector2D, g: Geometry)
    requires g.Sound() && 0.0 <= me.maxSpeed
    ensures var desired := Seek(me, target, g).Plus(me.velocity);
      var toTarget := target.Minus(me.pos);
      (target != me.pos ==>
        g.Length(desired) == me.maxSpeed && desired.Cross(toTarget) == 0.0 && 0.0 <= desired.Dot(toTarget)) &&
      (target == me.pos ==> desired == Zero)
  {
    var toTarget := target.Minus(me.pos);
    var desired := Seek(me, target, g).Plus(me.velocity);
    assert desired == g.Normalize(toTarget).Scale(me.maxSpeed);
    MinusZero(target, me.pos);
    if target != me.pos {
      NormalizedAlong(g, toTarget, me.maxSpeed);
    } else {
      NormalizeZero(g);
      assert toTarget == Zero;
      ZeroScale(me.maxSpeed);
    }
  }

  /**
   * The unit vector along a non-zero `v`, scaled by `k >= 0`, has length `k`
   * and points the way `v` does.
   */
  lemma NormalizedAlong(g: Geometry, v: Vector2D, k: real)
    requires g.Sound() && v != Zero && 0.0 <= k
    ensures g.Length(g.Normalize(v).Scale(k)) == k
    ensures g.Normalize(v).Scale(k).Cross(v) == 0.0 && 0.0 <= g.Normalize(v).Scale(k).Dot(v)
  {
    LengthZero(g, v);
    LengthNonNegative(g, v);
    var l := g.Length(v);
    NormalizeUnit(g, v);
    LengthScale(g, g.Normalize(v), k);
    var c := (1.0 / l) * k;
    assert 0.0 <= c;
    assert g.Normalize(v).Scale(k) == v.Scale(c) by {
      DivIsScale(v, l);
      ScaleTwice(v, 1.0 / l, k);
    }
    AlongVector(v, c);
  }

  lemma PlusMinus(a: Vector2D, b: Vector2D)
    ensures a.Plus(b).Minus(a) == b
  {
  }

  lemma MinusZero(a: Vector2D, b: Vector2D)
    ensures a.Minus(b) == Zero <==> a == b
  {
  }

  lemma NormalizeZero(g: Geometry)
    requires g.Sound()
    ensures g.Length(Zero) == 0.0 && g.Normalize(Zero) == Zero
  {
    LengthIs(g, Zero, 0.0);
    NormalizeIs(g, Zero);
  }

  lemma ZeroScale(k: real)
    ensures Zero.Scale(k) == Zero
  {
  }

  lemma ScaleDivSwap(v: Vector2D, k: real, d: real)
    requires d != 0.0
    ensures v.Scale(k).Div(d) == v.Div(d).Scale(k)
  {
    assert v.x * k / d == v.x / d * k;
    assert v.y * k / d == v.y / d * k;
  }

  lemma ScaleTwice(v: Vector2D, a: real, b: real)
    ensures v.Scale(a).Scale(b) == v.Scale(a * b)
  {
    assert v.x * a * b == v.x * (a * b);
    assert v.y * a * b == v.y * (a * b);
  }

  /** A non-negative multiple of a vector is parallel to it and points the same way. */
  lemma AlongVector(v: Vector2D, k: real)
    requires 0.0 <= k
    ensures v.Scale(k).Cross(v) == 0.0 && 0.0 <= v.Scale(k).Dot(v)
  {
    assert v.Scale(k).Dot(v) == k * v.LengthSq();
    SquareNonNegative(v.x);
    SquareNonNegative(v.y);
  }

  /** Like Seek, but the desired speed falls off as the target gets close. */
  function Arrive(me: Agent, target: Vector2D, deceleration: Deceleration, g: Geometry): Vector2D
  {
    var toTarget := target.Minus(me.pos);
    var dist := g.Length(toTarget);
    if dist > 0.0 then
      var speed := Min(dist / (deceleration.Value() * DecelerationTweaker), me.maxSpeed);
      toTarget.Scale(speed).Div(dist).Minus(me.velocity)
    else
      Zero
  }

  /** The speed Arrive aims for at distance `dist`. */
  function ArriveSpeed(dist: real, deceleration: Deceleration, maxSpeed: real): real
  {
    Min(dist / (deceleration.Value() * DecelerationTweaker), maxSpeed)
  }

  /**
   * At the target Arrive asks for nothing; anywhere else it asks for a
   * velocity pointing at the target whose speed is the distance over the
   * deceleration times 0.3, capped at the maximum speed.
   */
  lemma ArriveDesiredVelocity(me: Agent, target: Vector2D, deceleration: Deceleration, g: Geometry)
    requires g.Sound() && 0.0 <= me.maxSpeed
    ensures target == me.pos ==> Arrive(me, target, deceleration, g) == Zero
    ensures target != me.pos ==>
      var desired := Arrive(me, target, deceleration, g).Plus(me.velocity);
      var toTarget := target.Minus(me.pos);
      g.Length(desired) == ArriveSpeed(g.Length(toTarget), deceleration, me.maxSpeed) &&
      desired.Cross(toTarget) == 0.0 && 0.0 <= desired.Dot(toTarget)
  {
    var toTarget := target.Minus(me.pos);
    MinusZero(target, me.pos);
    LengthZero(g, toTarget);
    LengthNonNegative(g, toTarget);
    var dist := g.Length(toTarget);
    if target != me.pos {
      assert dist > 0.0;
      var speed := ArriveSpeed(dist, deceleration, me.maxSpeed);
      assert 0.0 <= speed;
      var scaled := toTarget.Scale(speed).Div(dist);
      assert Arrive(me, target, deceleration, g) == scaled.Minus(me.velocity);
      var desired := Arrive(me, target, deceleration, g).Plus(me.velocity);
      assert desired == scaled;
      assert scaled == g.Normalize(toTarget).Scale(speed) by {
        assert g.Normalize(toTarget) == toTarget.Div(dist);
        ScaleDivSwap(toTarget, speed, dist);
      }
      NormalizedAlong(g, toTarget, speed);
    }
  }

  /**
   * Arrive at the point `dist` away from `target` towards the ball, with
   * normal deceleration.
   */
  function Interpose(me: Agent, ballPos: Vector2D, target: Vector2D, dist: real, g: Geometry): Vector2D
  {
    Arrive(me, InterposePoint(ballPos, target, dist, g), Deceleration.Normal, g)
  }

  function InterposePoint(ballPos: Vector2D, target: Vector2D, dist: real, g: Geometry): Vector2D
  {
    target.Plus(g.Normalize(ballPos.Minus(target)).Scale(dist))
  }

  /**
   * The point Interpose heads for lies on the line from the target towards
   * the ball, `dist` away from the target.
   */
  lemma InterposePointOnLine(ballPos: Vector2D, target: Vector2D, dist: real, g: Geometry)
    requires g.Sound() && ballPos != target && 0.0 <= dist
    ensures var off := InterposePoint(ballPos, target, dist, g).Minus(target);
      g.Length(off) == dist &&
      off.Cross(ballPos.Minus(target)) == 0.0 && 0.0 <= off.Dot(ballPos.Minus(target))
  {
    var v := ballPos.Minus(target);
    assert InterposePoint(ballPos, target, dist, g).Minus(target) == g.Normalize(v).Scale(dist);
    NormalizedAlong(g, v, dist);
  }

  /** What AccumulateForce leaves behind: whether it added anything, and the force. */
  datatype Accumulation = Accumulation(ok: bool, sf: Vector2D)

  /**
   * Adds to the running force `sf` as much of `forceToAdd` as the budget
   * `maxForce` still allows.  With no budget left nothing is added and the
   * answer is false.
   */
  function AccumulateForce(sf: Vector2D, forceToAdd: Vector2D, maxForce: real, g: Geometry): (r: Accumulation)
    ensures r.ok <==> g.Length(sf) < maxForce
    ensures !r.ok ==> r.sf == sf
  {
    var remaining := maxForce - g.Length(sf);
    if remaining <= 0.0 then Accumulation(false, sf)
    else
      var toAdd := Min(g.Length(forceToAdd), remaining);
      Accumulation(true, sf.Plus(g.Normalize(forceToAdd).Scale(toAdd)))
  }

  /**
   * When there is budget left, the force grows by a vector along the force
   * to add, as long as that force or the remaining budget, whichever is less.
   */
  lemma AccumulateForceAdds(sf: Vector2D, forceToAdd: Vector2D, maxForce: real, g: Geometry)
    requires g.Sound()
    ensures var r := AccumulateForce(sf, forceToAdd, maxForce, g);
      var added := r.sf.Minus(sf);
      r.ok ==>
        g.Length(added) == Min(g.Length(forceToAdd), maxForce - g.Length(sf)) &&
        added.Cross(forceToAdd) == 0.0 && 0.0 <= added.Dot(forceToAdd)
  {
    var r := AccumulateForce(sf, forceToAdd, maxForce, g);
    if r.ok {
      var toAdd := Min(g.Length(forceToAdd), maxForce - g.Length(sf));
      LengthNonNegative(g, forceToAdd);
      PlusMinus(sf, g.Normalize(forceToAdd).Scale(toAdd));
      ScaledAlong(g, forceToAdd, toAdd);
    }
  }

  /**
   * The unit vector along `v` scaled by `k`, where `k` is at most the length
   * of `v`, has length `k` and points the way `v` does (a zero `v` gives zero).
   */
  lemma ScaledAlong(g: Geometry, v: Vector2D, k: real)
    requires g.Sound() && 0.0 <= k <= g.Length(v)
    ensures g.Length(g.Normalize(v).Scale(k)) == k
    ensures g.Normalize(v).Scale(k).Cross(v) == 0.0 && 0.0 <= g.Normalize(v).Scale(k).Dot(v)
  {
    if v == Zero {
      NormalizeZero(g);
      ZeroScale(k);
    } else {
      NormalizedAlong(g, v, k);
    }
  }

  /** A force within the budget stays within it, however much is added. */
  lemma AccumulateForceWithinBudget(sf: Vector2D, forceToAdd: Vector2D, maxForce: real, g: Geometry)
    requires g.Sound() && g.Length(sf) <= maxForce
    ensures g.Length(AccumulateForce(sf, forceToAdd, maxForce, g).sf) <= maxForce
  {
    var r := AccumulateForce(sf, forceToAdd, maxForce, g);
    if r.ok {
      var added := r.sf.Minus(sf);
      AccumulateForceAdds(sf, forceToAdd, maxForce, g);
      assert r.sf == sf.Plus(added);
      Triangle(g, sf, added);
    }
  }

  /**
   * The bookkeeping of SumForces after each behaviour: the steering force so
   * far, the running sum of the behaviours' forces (never reset between
   * behaviours), the steering target, and whether the budget ran out.
   */
  datatype Tally = Tally(sf: Vector2D, force: Vector2D, target: Vector2D, stopped: bool)

  /**
   * One behaviour's turn in SumForces: when it is switched on, its force
   * joins the running sum and the running sum is offered to AccumulateForce,
   * whose refusal stops the sum.
   */
  function Stage(t: Tally, on: bool, contribution: Vector2D, maxForce: real, g: Geometry): Tally
  {
    if !on then t
    else
      var force := t.force.Plus(contribution);
      var acc := AccumulateForce(t.sf, force, maxForce, g);
      Tally(acc.sf, force, t.target, !acc.ok)
  }

  lemma StageWithinBudget(t: Tally, on: bool, contribution: Vector2D, maxForce: real, g: Geometry)
    requires g.Sound() && g.Length(t.sf) <= maxForce
    ensures g.Length(Stage(t, on, contribution, maxForce, g).sf) <= maxForce
    ensures Stage(t, on, contribution, maxForce, g).target == t.target
  {
    if on {
      AccumulateForceWithinBudget(t.sf, t.force.Plus(contribution), maxForce, g);
    }
  }

  /** A player's neighbour as separation sees it. */
  datatype Neighbour = Neighbour(pos: Vector2D, tagged: bool, isSelf: bool)

  /** Separation counts the tagged players other than the agent itself. */
  predicate Repels(n: Neighbour) { n.tagged && !n.isSelf }

  /** Every player separation counts stands at a positive distance from the agent. */
  predicate Separable(me: Vector2D, ns: seq<Neighbour>, g: Geometry)
  {
    forall i :: 0 <= i < |ns| && Repels(ns[i]) ==> g.Length(me.Minus(ns[i].pos)) != 0.0
  }

  /** The push away from `other`, inversely proportional to the distance. */
  function Repulsion(me: Vector2D, other: Vector2D, g: Geometry): Vector2D
    requires g.Length(me.Minus(other)) != 0.0
  {
    g.Normalize(me.Minus(other)).Div(g.Length(me.Minus(other)))
  }

  /** The sum of the pushes away from every player separation counts, in roster order. */
  function SeparationSum(me: Vector2D, ns: seq<Neighbour>, g: Geometry): Vector2D
    requires Separable(me, ns, g)
  {
    if |ns| == 0 then Zero
    else
      var rest := SeparationSum(me, ns[..|ns| - 1], g);
      var n := ns[|ns| - 1];
      if Repels(n) then rest.Plus(Repulsion(me, n.pos, g)) else rest
  }

  /**
   * Each push points straight away from the other player and has magnitude
   * one over the distance.
   */
  lemma RepulsionPointsAway(me: Vector2D, other: Vector2D, g: Geometry)
    requires g.Sound() && me != other
    ensures g.Length(me.Minus(other)) != 0.0
    ensures var p := Repulsion(me, other, g);
      var away := me.Minus(other);
      g.Length(p) == 1.0 / g.Length(away) && p.Cross(away) == 0.0 && 0.0 < p.Dot(away)
  {
    var away := me.Minus(other);
    LengthZero(g, away);
    LengthNonNegative(g, away);
    var l := g.Length(away);
    NormalizeUnit(g, away);
    var p := Repulsion(me, other, g);
    DivIsScale(g.Normalize(away), l);
    LengthScale(g, g.Normalize(away), 1.0 / l);
    assert g.Length(p) == 1.0 / l;
    DivIsScale(away, l);
    assert p == away.Scale((1.0 / l) * (1.0 / l));
    AlongVector(away, (1.0 / l) * (1.0 / l));
    LengthSqPositive(away);
    assert p.Dot(away) == ((1.0 / l) * (1.0 / l)) * away.LengthSq();
  }

  /** With no one tagged besides the agent itself, separation pushes nowhere. */
  lemma {:induction false} SeparationAlone(me: Vector2D, ns: seq<Neighbour>, g: Geometry)
    requires forall i :: 0 <= i < |ns| ==> !Repels(ns[i])
    ensures Separable(me, ns, g) && SeparationSum(me, ns, g) == Zero
  {
    if |ns| > 0 {
      SeparationAlone(me, ns[..|ns| - 1], g);
    }
  }

  /** Pairwise different objects, as the entries of the source's player list are. */
  predicate Distinct<T(==)>(s: seq<T>)
  {
    forall i, j :: 0 <= i < j < |s| ==> s[i] != s[j]
  }

  class SteeringBehaviors {
    var flags: bv32
    var steeringForce: Vector2D
    var target: Vector2D
    var interposeDist: real
    var tagged: bool
    const multSeparation: real
    const viewDistance: real
    const ball: SoccerBall

    /** Every behaviour off, untagged, zero force, target and interpose distance. */
    constructor (ball: SoccerBall, prm: Params)
      ensures flags == NoBehavior && !tagged
      ensures multSeparation == prm.separationCoefficient && viewDistance == prm.viewDistance
      ensures this.ball == ball && interposeDist == 0.0
      ensures steeringForce == Zero && target == Zero
    {
      flags := NoBehavior;
      multSeparation := prm.separationCoefficient;
      tagged := false;
      viewDistance := prm.viewDistance;
      this.ball := ball;
      interposeDist := 0.0;
      steeringForce := Zero;
      target := Zero;
    }

    function Force(): Vector2D reads this { steeringForce }

    /** The steering force along the heading. */
    function ForwardComponent(me: Agent): real reads this { me.heading.Dot(steeringForce) }

    /** The steering force across the heading, scaled by the turn rate. */
    function SideComponent(me: Agent): real reads this { me.side.Dot(steeringForce) * me.maxTurnRate }

    function Target(): Vector2D reads this { target }

    method SetTarget(t: Vector2D)
      modifies this`target
      ensures Target() == t
    {
      target := t;
    }

    function InterposeDistance(): real reads this { interposeDist }

    method SetInterposeDistance(d: real)
      modifies this`interposeDist
      ensures InterposeDistance() == d
    {
      interposeDist := d;
    }

    function Tagged(): bool reads this { tagged }

    method Tag()
      modifies this`tagged
      ensures Tagged()
    {
      tagged := true;
    }

    method UnTag()
      modifies this`tagged
      ensures !Tagged()
    {
      tagged := false;
    }

    // The switch-on setters compare the flags with the behaviour and discard
    // the answer, so none of them switches anything on.

    method SeekOn()
      ensures flags == old(flags)
    {
    }

    method ArriveOn()
      ensures flags == old(flags)
    {
    }

    method PursuitOn()
      ensures flags == old(flags)
    {
    }

    method SeparationOn()
      ensures flags == old(flags)
    {
    }

    /** Switches nothing on, but does set the interpose distance. */
    method InterposeOn(d: real)
      modifies this`interposeDist
      ensures flags == old(flags) && interposeDist == d
    {
      interposeDist := d;
    }

    method SeekOff()
      modifies this`flags
      ensures flags == Off(old(flags), SeekBit)
    {
      if On(flags, SeekBit) { flags := flags ^ SeekBit; }
    }

    method ArriveOff()
      modifies this`flags
      ensures flags == Off(old(flags), ArriveBit)
    {
      if On(flags, ArriveBit) { flags := flags ^ ArriveBit; }
    }

    method PursuitOff()
      modifies this`flags
      ensures flags == Off(old(flags), PursuitBit)
    {
      if On(flags, PursuitBit) { flags := flags ^ PursuitBit; }
    }

    method SeparationOff()
      modifies this`flags
      ensures flags == Off(old(flags), SeparationBit)
    {
      if On(flags, SeparationBit) { flags := flags ^ SeparationBit; }
    }

    method InterposeOff()
      modifies this`flags
      ensures flags == Off(old(flags), InterposeBit)
    {
      if On(flags, InterposeBit) { flags := flags ^ InterposeBit; }
    }

    predicate IsSeekOn() reads this { On(flags, SeekBit) }
    predicate IsArriveOn() reads this { On(flags, ArriveBit) }
    predicate IsPursuitOn() reads this { On(flags, PursuitBit) }
    predicate IsSeparationOn() reads this { On(flags, SeparationBit) }
    predicate IsInterposeOn() reads this { On(flags, InterposeBit) }

    /** How far ahead Pursuit looks: the ball's distance over its speed, or 0 for a ball at rest. */
    function LookAheadTime(me: Agent, g: Geometry): real
      reads ball
    {
      if ball.Speed(g) != 0.0 then g.Length(ball.pos.Minus(me.pos)) / ball.Speed(g) else 0.0
    }

    /** Where Pursuit expects the ball to be. */
    function PursuitTarget(me: Agent, prm: Params, g: Geometry): Vector2D
      reads ball
    {
      ball.FuturePosition(LookAheadTime(me, g), prm, g)
    }

    /** Retargets to where the ball will be and arrives there fast. */
    method Pursuit(me: Agent, prm: Params, g: Geometry) returns (force: Vector2D)
      modifies this`target
      ensures target == PursuitTarget(me, prm, g)
      ensures force == Arrive(me, target, Fast, g)
    {
      var lookAheadTime := 0.0;
      if ball.Speed(g) != 0.0 {
        lookAheadTime := g.Length(ball.pos.Minus(me.pos)) / ball.Speed(g);
      }
      target := ball.FuturePosition(lookAheadTime, prm, g);
      force := Arrive(me, target, Fast, g);
    }

    /** Whether a player at `p` is close enough to the agent at `me` to be tagged. */
    predicate InView(me: Vector2D, p: Vector2D)
    {
      DistanceSq(me, p) < viewDistance * viewDistance
    }

    /** The roster as separation sees it, with the tags the players carry now. */
    function Neighbours(all: seq<SteeringBehaviors>, positions: seq<Vector2D>): (ns: seq<Neighbour>)
      requires |all| == |positions|
      reads set s | s in all
    {
      seq(|all|, i requires 0 <= i < |all| reads all => Neighbour(positions[i], all[i].tagged, all[i] == this))
    }

    /** The roster as separation sees it once FindNeighbours has tagged it from `me`. */
    function Sighted(me: Vector2D, all: seq<SteeringBehaviors>, positions: seq<Vector2D>): (ns: seq<Neighbour>)
      requires |all| == |positions|
    {
      seq(|all|, i requires 0 <= i < |all| => Neighbour(positions[i], InView(me, positions[i]), all[i] == this))
    }

    /**
     * Untags every player, then tags exactly those strictly within view
     * distance of the agent, the agent itself included.
     */
    method FindNeighbours(me: Vector2D, all: seq<SteeringBehaviors>, positions: seq<Vector2D>)
      requires |all| == |positions| && Distinct(all)
      modifies (set s | s in all)`tagged
      ensures forall i :: 0 <= i < |all| ==> all[i].tagged == InView(me, positions[i])
    {
      var i := 0;
      while i < |all|
        invariant 0 <= i <= |all|
        invariant forall j :: 0 <= j < i ==> all[j].tagged == InView(me, positions[j])
      {
        all[i].UnTag();
        var to := positions[i].Minus(me);
        if to.LengthSq() < viewDistance * viewDistance {
          all[i].Tag();
        }
        i := i + 1;
      }
    }

    /** Sums the pushes away from every tagged player other than the agent. */
    method Separation(me: Vector2D, all: seq<SteeringBehaviors>, positions: seq<Vector2D>, g: Geometry)
      returns (force: Vector2D)
      requires |all| == |positions| && Separable(me, Neighbours(all, positions), g)
      ensures force == SeparationSum(me, Neighbours(all, positions), g)
    {
      ghost var ns := Neighbours(all, positions);
      force := Zero;
      var i := 0;
      while i < |all|
        invariant 0 <= i <= |all|
        invariant Separable(me, ns[..i], g)
        invariant force == SeparationSum(me, ns[..i], g)
      {
        assert ns[..i + 1][..i] == ns[..i];
        assert ns[i] == Neighbour(positions[i], all[i].tagged, all[i] == this);
        if all[i] != this && all[i].tagged {
          assert Repels(ns[i]);
          var toAgent := me.Minus(positions[i]);
          force := force.Plus(g.Normalize(toAgent).Div(g.Length(toAgent)));
        }
        i := i + 1;
      }
      assert ns[..|all|] == ns;
    }

    /**
     * What SumForces computes from a starting force `sf0` and target
     * `target0`: separation, seek, arrive, pursuit and interpose take their
     * turns in that order, and the first refusal of the budget ends the sum.
     */
    function Summed(sf0: Vector2D, target0: Vector2D, me: Agent, sep: Vector2D, prm: Params, g: Geometry): Tally
      reads this`flags, this`interposeDist, ball
    {
      Turns(0, Tally(sf0, Zero, target0, false), me, sep, prm, g)
    }

    /**
     * The turns of behaviours `k` to 4 (0 separation, 1 seek, 2 arrive,
     * 3 pursuit, 4 interpose), until the budget refuses one.
     */
    function Turns(k: nat, t: Tally, me: Agent, sep: Vector2D, prm: Params, g: Geometry): Tally
      reads this`flags, this`interposeDist, ball
      decreases 5 - k
    {
      if t.stopped || 5 <= k then t
      else Turns(k + 1, Turn(k, t, me, sep, prm, g), me, sep, prm, g)
    }

    /**
     * Behaviour `k`'s turn: seek and arrive head for the current target,
     * pursuit first retargets to where the ball will be, and interpose goes
     * between the ball and the current target.
     */
    function Turn(k: nat, t: Tally, me: Agent, sep: Vector2D, prm: Params, g: Geometry): Tally
      reads this`flags, this`interposeDist, ball
    {
      if k == 0 then Stage(t, On(flags, SeparationBit), sep.Scale(multSeparation), me.maxForce, g)
      else if k == 1 then Stage(t, On(flags, SeekBit), Seek(me, t.target, g), me.maxForce, g)
      else if k == 2 then Stage(t, On(flags, ArriveBit), Arrive(me, t.target, Fast, g), me.maxForce, g)
      else if k == 3 then
        if On(flags, PursuitBit) then
          var chase := PursuitTarget(me, prm, g);
          Stage(t.(target := chase), true, Arrive(me, chase, Fast, g), me.maxForce, g)
        else t
      else Stage(t, On(flags, InterposeBit), Interpose(me, ball.pos, t.target, interposeDist, g), me.maxForce, g)
    }

    /** The separation force SumForces would use, or zero when separation is off. */
    function SeparationInput(me: Agent, all: seq<SteeringBehaviors>, positions: seq<Vector2D>, g: Geometry): Vector2D
      requires |all| == |positions|
      requires On(flags, SeparationBit) ==> Separable(me.pos, Sighted(me.pos, all, positions), g)
      reads this`flags
    {
      if On(flags, SeparationBit) then SeparationSum(me.pos, Sighted(me.pos, all, positions), g) else Zero
    }

    /**
     * Tags the neighbours, then lets the switched-on behaviours add to the
     * steering force in order, stopping at the first one the budget refuses.
     * Each behaviour's turn is one of the five methods below; `result` is the
     * outcome Summed predicts, and each turn keeps the prediction of the
     * turns still to come equal to it.
     */
    method SumForces(me: Agent, all: seq<SteeringBehaviors>, positions: seq<Vector2D>, prm: Params, g: Geometry)
      returns (force: Vector2D)
      requires |all| == |positions| && Distinct(all)
      requires On(flags, SeparationBit) ==> Separable(me.pos, Sighted(me.pos, all, positions), g)
      modifies this`steeringForce, this`target, (set s | s in all)`tagged
      ensures forall i :: 0 <= i < |all| ==> all[i].tagged == InView(me.pos, positions[i])
      ensures var t := old(Summed(steeringForce, target, me, SeparationInput(me, all, positions, g), prm, g));
        steeringForce == t.sf && target == t.target && force == steeringForce
    {
      ghost var sep := SeparationInput(me, all, positions, g);
      ghost var t := Tally(steeringForce, Zero, target, false);
      ghost var result := Summed(steeringForce, target, me, sep, prm, g);

      FindNeighbours(me.pos, all, positions);
      assert Neighbours(all, positions) == Sighted(me.pos, all, positions);
      var sum := Zero;
      var stopped;
      sum, stopped, t := SeparationTurn(result, t, sum, me, all, positions, sep, prm, g);
      if stopped { return steeringForce; }
      sum, stopped, t := SeekTurn(result, t, sum, me, sep, prm, g);
      if stopped { return steeringForce; }
      sum, stopped, t := ArriveTurn(result, t, sum, me, sep, prm, g);
      if stopped { return steeringForce; }
      sum, stopped, t := PursuitTurn(result, t, sum, me, sep, prm, g);
      if stopped { return steeringForce; }
      sum, stopped, t := InterposeTurn(result, t, sum, me, sep, prm, g);
      return steeringForce;
    }

    /** Separation's turn: the pushes away from the tagged neighbours, weighted. */
    method SeparationTurn(ghost result: Tally, ghost t: Tally, sum: Vector2D, me: Agent,
                          all: seq<SteeringBehaviors>, positions: seq<Vector2D>, ghost sep: Vector2D, prm: Params, g: Geometry)
      returns (newSum: Vector2D, stopped: bool, ghost next: Tally)
      requires |all| == |positions| && Neighbours(all, positions) == Sighted(me.pos, all, positions)
      requires On(flags, SeparationBit) ==> Separable(me.pos, Sighted(me.pos, all, positions), g)
      requires sep == SeparationInput(me, all, positions, g)
      requires result == Turns(0, t, me, sep, prm, g) && !t.stopped
      requires steeringForce == t.sf && sum == t.force && target == t.target
      modifies this`steeringForce
      ensures result == Turns(1, next, me, sep, prm, g)
      ensures stopped ==> result == next
      ensures steeringForce == next.sf && newSum == next.force && target == next.target && stopped == next.stopped
    {
      newSum, stopped, next := sum, false, t;
      if On(flags, SeparationBit) {
        var s := Separation(me.pos, all, positions, g);
        newSum := sum.Plus(s.Scale(multSeparation));
        var acc := AccumulateForce(steeringForce, newSum, me.maxForce, g);
        steeringForce := acc.sf;
        stopped := !acc.ok;
        next := Stage(t, true, sep.Scale(multSeparation), me.maxForce, g);
      }
    }

    /** Seek's turn: full speed at the current target. */
    method SeekTurn(ghost result: Tally, ghost t: Tally, sum: Vector2D, me: Agent, ghost sep: Vector2D, prm: Params, g: Geometry)
      returns (newSum: Vector2D, stopped: bool, ghost next: Tally)
      requires result == Turns(1, t, me, sep, prm, g) && !t.stopped
      requires steeringForce == t.sf && sum == t.force && target == t.target
      modifies this`steeringForce
      ensures result == Turns(2, next, me, sep, prm, g)
      ensures stopped ==> result == next
      ensures steeringForce == next.sf && newSum == next.force && target == next.target && stopped == next.stopped
    {
      newSum, stopped, next := sum, false, t;
      if On(flags, SeekBit) {
        newSum := sum.Plus(Seek(me, target, g));
        var acc := AccumulateForce(steeringForce, newSum, me.maxForce, g);
        steeringForce := acc.sf;
        stopped := !acc.ok;
        next := Stage(t, true, Seek(me, t.target, g), me.maxForce, g);
      }
    }

    /** Arrive's turn: towards the current target, braking fast. */
    method ArriveTurn(ghost result: Tally, ghost t: Tally, sum: Vector2D, me: Agent, ghost sep: Vector2D, prm: Params, g: Geometry)
      returns (newSum: Vector2D, stopped: bool, ghost next: Tally)
      requires result == Turns(2, t, me, sep, prm, g) && !t.stopped
      requires steeringForce == t.sf && sum == t.force && target == t.target
      modifies this`steeringForce
      ensures result == Turns(3, next, me, sep, prm, g)
      ensures stopped ==> result == next
      ensures steeringForce == next.sf && newSum == next.force && target == next.target && stopped == next.stopped
    {
      newSum, stopped, next := sum, false, t;
      if On(flags, ArriveBit) {
        newSum := sum.Plus(Arrive(me, target, Fast, g));
        var acc := AccumulateForce(steeringForce, newSum, me.maxForce, g);
        steeringForce := acc.sf;
        stopped := !acc.ok;
        next := Stage(t, true, Arrive(me, t.target, Fast, g), me.maxForce, g);
      }
    }

    /** Pursuit's turn: retarget to where the ball will be, then arrive there. */
    method PursuitTurn(ghost result: Tally, ghost t: Tally, sum: Vector2D, me: Agent, ghost sep: Vector2D, prm: Params, g: Geometry)
      returns (newSum: Vector2D, stopped: bool, ghost next: Tally)
      requires result == Turns(3, t, me, sep, prm, g) && !t.stopped
      requires steeringForce == t.sf && sum == t.force && target == t.target
      modifies this`steeringForce, this`target
      ensures result == Turns(4, next, me, sep, prm, g)
      ensures stopped ==> result == next
      ensures steeringForce == next.sf && newSum == next.force && target == next.target && stopped == next.stopped
    {
      newSum, stopped, next := sum, false, t;
      if On(flags, PursuitBit) {
        var p := Pursuit(me, prm, g);
        newSum := sum.Plus(p);
        var acc := AccumulateForce(steeringForce, newSum, me.maxForce, g);
        steeringForce := acc.sf;
        stopped := !acc.ok;
        next := Stage(t.(target := target), true, p, me.maxForce, g);
      }
    }

    /** Interpose's turn, the last: between the ball and the current target. */
    method InterposeTurn(ghost result: Tally, ghost t: Tally, sum: Vector2D, me: Agent, ghost sep: Vector2D, prm: Params, g: Geometry)
      returns (newSum: Vector2D, stopped: bool, ghost next: Tally)
      requires result == Turns(4, t, me, sep, prm, g) && !t.stopped
      requires steeringForce == t.sf && sum == t.force && target == t.target
      modifies this`steeringForce
      ensures result == next
      ensures steeringForce == next.sf && newSum == next.force && target == next.target && stopped == next.stopped
    {
      newSum, stopped, next := sum, false, t;
      if On(flags, InterposeBit) {
        newSum := sum.Plus(Interpose(me, ball.pos, target, interposeDist, g));
        var acc := AccumulateForce(steeringForce, newSum, me.maxForce, g);
        steeringForce := acc.sf;
        stopped := !acc.ok;
        next := Stage(t, true, Interpose(me, ball.pos, t.target, interposeDist, g), me.maxForce, g);
      }
    }

    /**
     * Starts from a zero force, sums the behaviours and truncates the result
     * to the player's maximum force.
     */
    method Calculate(me: Agent, all: seq<SteeringBehaviors>, positions: seq<Vector2D>, prm: Params, g: Geometry)
      returns (force: Vector2D)
      requires |all| == |positions| && Distinct(all)
      requires On(flags, SeparationBit) ==> Separable(me.pos, Sighted(me.pos, all, positions), g)
      modifies this`steeringForce, this`target, (set s | s in all)`tagged
      ensures forall i :: 0 <= i < |all| ==> all[i].tagged == InView(me.pos, positions[i])
      ensures var t := Summed(Zero, old(target), me, SeparationInput(me, all, positions, g), prm, g);
        force == steeringForce == g.Truncate(t.sf, me.maxForce) && target == t.target
      ensures g.Sound() && 0.0 <= me.maxForce ==> g.Length(force) <= me.maxForce
    {
      steeringForce := Zero;
      var sum := SumForces(me, all, positions, prm, g);
      steeringForce := g.Truncate(sum, me.maxForce);
      force := steeringForce;
      if g.Sound() && 0.0 <= me.maxForce {
        TruncateBound(g, sum, me.maxForce);
      }
    }
  }

  /**
   * A steering force that starts within the budget ends SumForces within it,
   * whichever behaviours are on.
   */
  lemma SumForcesWithinBudget(s: SteeringBehaviors, sf0: Vector2D, target0: Vector2D, me: Agent, sep: Vector2D, prm: Params, g: Geometry)
    requires g.Sound() && g.Length(sf0) <= me.maxForce
    ensures g.Length(s.Summed(sf0, target0, me, sep, prm, g).sf) <= me.maxForce
  {
    TurnsWithinBudget(s, 0, Tally(sf0, Zero, target0, false), me, sep, prm, g);
  }

  lemma {:induction false} TurnsWithinBudget(s: SteeringBehaviors, k: nat, t: Tally, me: Agent, sep: Vector2D, prm: Params, g: Geometry)
    requires g.Sound() && g.Length(t.sf) <= me.maxForce
    ensures g.Length(s.Turns(k, t, me, sep, prm, g).sf) <= me.maxForce
    decreases 5 - k
  {
    if !t.stopped && k < 5 {
      TurnWithinBudget(s, k, t, me, sep, prm, g);
      TurnsWithinBudget(s, k + 1, s.Turn(k, t, me, sep, prm, g), me, sep, prm, g);
    }
  }

  lemma TurnWithinBudget(s: SteeringBehaviors, k: nat, t: Tally, me: Agent, sep: Vector2D, prm: Params, g: Geometry)
    requires g.Sound() && g.Length(t.sf) <= me.maxForce
    ensures g.Length(s.Turn(k, t, me, sep, prm, g).sf) <= me.maxForce
  {
    if k == 0 {
      StageWithinBudget(t, On(s.flags, SeparationBit), sep.Scale(s.multSeparation), me.maxForce, g);
    } else if k == 1 {
      StageWithinBudget(t, On(s.flags, SeekBit), Seek(me, t.target, g), me.maxForce, g);
    } else if k == 2 {
      StageWithinBudget(t, On(s.flags, ArriveBit), Arrive(me, t.target, Fast, g), me.maxForce, g);
    } else if k == 3 {
      var chase := s.PursuitTarget(me, prm, g);
      StageWithinBudget(t.(target := chase), true, Arrive(me, chase, Fast, g), me.maxForce, g);
    } else {
      StageWithinBudget(t, On(s.flags, InterposeBit), Interpose(me, s.ball.pos, t.target, s.interposeDist, g), me.maxForce, g);
    }
  }

  /**
   * A steering force that has already used up the budget is returned as it
   * is: the first switched-on behaviour is refused and stops the sum.
   */
  lemma SumForcesSaturated(s: SteeringBehaviors, sf0: Vector2D, target0: Vector2D, me: Agent, sep: Vector2D, prm: Params, g: Geometry)
    requires me.maxForce <= g.Length(sf0)
    ensures s.Summed(sf0, target0, me, sep, prm, g).sf == sf0
  {
    TurnsSaturated(s, 0, Tally(sf0, Zero, target0, false), me, sep, prm, g);
  }

  lemma {:induction false} TurnsSaturated(s: SteeringBehaviors, k: nat, t: Tally, me: Agent, sep: Vector2D, prm: Params, g: Geometry)
    requires me.maxForce <= g.Length(t.sf)
    ensures s.Turns(k, t, me, sep, prm, g).sf == t.sf
    decreases 5 - k
  {
    if !t.stopped && k < 5 {
      TurnsSaturated(s, k + 1, s.Turn(k, t, me, sep, prm, g), me, sep, prm, g);
    }
  }

  /**
   * With every behaviour off, SumForces leaves the steering force and the
   * target as they were, and Calculate's truncated sum is the zero vector.
   */
  lemma SumForcesAllOff(s: SteeringBehaviors, sf0: Vector2D, target0: Vector2D, me: Agent, sep: Vector2D, prm: Params, g: Geometry)
    requires s.flags == NoBehavior && g.Sound()
    ensures s.Summed(sf0, target0, me, sep, prm, g) == Tally(sf0, Zero, target0, false)
    ensures g.Truncate(s.Summed(Zero, target0, me, sep, prm, g).sf, me.maxForce) == Zero
  {
    TurnsAllOff(s, 0, Tally(sf0, Zero, target0, false), me, sep, prm, g);
    TurnsAllOff(s, 0, Tally(Zero, Zero, target0, false), me, sep, prm, g);
    NormalizeZero(g);
    ZeroScale(me.maxForce);
  }

  lemma {:induction false} TurnsAllOff(s: SteeringBehaviors, k: nat, t: Tally, me: Agent, sep: Vector2D, prm: Params, g: Geometry)
    requires s.flags == NoBehavior
    ensures s.Turns(k, t, me, sep, prm, g) == t
    decreases 5 - k
  {
    if !t.stopped && k < 5 {
      NothingOn();
      TurnsAllOff(s, k + 1, s.Turn(k, t, me, sep, prm, g), me, sep, prm, g);
    }
  }

  lemma NothingOn()
    ensures !On(NoBehavior, SeparationBit) && !On(NoBehavior, SeekBit) && !On(NoBehavior, ArriveBit)
    ensures !On(NoBehavior, PursuitBit) && !On(NoBehavior, InterposeBit)
  {
  }

  /**
   * No switch ever turns a behaviour on, and switching one off keeps a clear
   * bit field clear, so a steering object constructed with every behaviour
   * off keeps them all off.
   */
  lemma SwitchedOffStaysOff(bt: bv32)
    ensures Off(NoBehavior, bt) == NoBehavior
    ensures !IsBehavior(bt) || !On(NoBehavior, bt)
  {
  }

  /** A ball at rest is pursued where it lies. */
  lemma PursuitOfRestingBall(s: SteeringBehaviors, me: Agent, prm: Params, g: Geometry)
    requires g.Sound() && s.ball.velocity == Zero
    ensures s.PursuitTarget(me, prm, g) == s.ball.pos
  {
    NormalizeZero(g);
    assert s.ball.Speed(g) == 0.0;
    assert s.LookAheadTime(me, g) == 0.0;
    FuturePositionNow(s.ball, prm, g);
  }
}
